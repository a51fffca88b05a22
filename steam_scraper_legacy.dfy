/** The older SteamScraper (me.theforbiddenai tree). It reads the same GetItems JSON as
    the newer one and shares its filters, screenshots and id-list helpers; it differs in
    three places: a discount without `discount_amount` counts as amount -1, the store
    media loop skips non-string fields before reading them, and the results are an
    ordered list that keeps duplicates. */
module LegacySteamScraper {
  import opened Common
  import opened Strings
  import opened Domain
  import opened SteamScraper

  // ---------------------------------------------------------------------------
  // Discount end date

  /** `discount_amount` read with `asLong`, -1 when it is missing. */
  function LegacyAmount(d: Discount): int {
    match d.discountAmount case None => NoExpirationEpoch case Some(a) => a
  }

  /** The older test for "this discount is the 100% one". */
  predicate IsLegacyFullDiscount(d: Discount, priceInCents: int) {
    LegacyAmount(d) == priceInCents
  }

  /** The end date of the first discount that passes the older test and has one. */
  function LegacyFirstFullDiscountEnd(ds: seq<Discount>, priceInCents: int): (r: Option<int>)
    ensures r.Some? ==> exists k :: 0 <= k < |ds| && IsLegacyFullDiscount(ds[k], priceInCents)
                                    && ds[k].discountEndDate == r
                                    && forall j :: 0 <= j < k ==> !(IsLegacyFullDiscount(ds[j], priceInCents) && ds[j].discountEndDate.Some?)
    ensures r.None? ==> forall k :: 0 <= k < |ds| ==> !(IsLegacyFullDiscount(ds[k], priceInCents) && ds[k].discountEndDate.Some?)
  {
    if ds == [] then None
    else if IsLegacyFullDiscount(ds[0], priceInCents) && ds[0].discountEndDate.Some? then
      assert IsLegacyFullDiscount(ds[0], priceInCents);
      ds[0].discountEndDate
    else
      var r := LegacyFirstFullDiscountEnd(ds[1..], priceInCents);
      assert forall k :: 0 <= k < |ds| - 1 ==> ds[1..][k] == ds[k + 1];
      if r.Some? then
        var k :| 0 <= k < |ds| - 1 && IsLegacyFullDiscount(ds[1..][k], priceInCents) && ds[1..][k].discountEndDate == r
                 && forall j :: 0 <= j < k ==> !(IsLegacyFullDiscount(ds[1..][j], priceInCents) && ds[1..][j].discountEndDate.Some?);
        assert IsLegacyFullDiscount(ds[k + 1], priceInCents) && ds[k + 1].discountEndDate == r;
        r
      else r
  }

  /** What the older `extractDiscountEndDate` returns: the sentinel when the active
      discounts (or the purchase option holding them) or the original price is missing,
      else the first matching discount's end date, else the sentinel. */
  function LegacyDiscountEndDate(item: SteamItem): (epoch: int)
    ensures item.bestPurchaseOption.None? ==> epoch == NoExpirationEpoch
    ensures item.bestPurchaseOption.Some? && item.bestPurchaseOption.value.activeDiscounts.None? ==> epoch == NoExpirationEpoch
    ensures item.bestPurchaseOption.Some? && item.bestPurchaseOption.value.originalPriceInCents.None? ==> epoch == NoExpirationEpoch
  {
    match item.bestPurchaseOption
    case None => NoExpirationEpoch
    case Some(option) =>
      if option.activeDiscounts.None? || option.originalPriceInCents.None? then NoExpirationEpoch
      else match LegacyFirstFullDiscountEnd(option.activeDiscounts.value, option.originalPriceInCents.value)
        case Some(end) => end
        case None => NoExpirationEpoch
  }

  /** The older `extractDiscountEndDate`: a discount's amount defaults to -1, and the
      first discount whose amount equals the price and that has an end date wins. */
  method ExtractDiscountEndDate(item: SteamItem) returns (epoch: int)
    ensures epoch == LegacyDiscountEndDate(item)
  {
    if item.bestPurchaseOption.None? {
      return NoExpirationEpoch;
    }
    var bestPurchaseOption := item.bestPurchaseOption.value;
    if bestPurchaseOption.activeDiscounts.None? {
      return NoExpirationEpoch;
    }
    var activeDiscounts := bestPurchaseOption.activeDiscounts.value;
    if bestPurchaseOption.originalPriceInCents.None? {
      return NoExpirationEpoch;
    }
    var originalPriceInCents := bestPurchaseOption.originalPriceInCents.value;
    var i := 0;
    while i < |activeDiscounts|
      invariant 0 <= i <= |activeDiscounts|
      invariant LegacyFirstFullDiscountEnd(activeDiscounts, originalPriceInCents)
             == LegacyFirstFullDiscountEnd(activeDiscounts[i..], originalPriceInCents)
    {
      var activeDiscount := activeDiscounts[i];
      assert activeDiscounts[i..][1..] == activeDiscounts[i + 1..];
      var discountAmount := if activeDiscount.discountAmount.Some? then activeDiscount.discountAmount.value
                            else NoExpirationEpoch;
      if discountAmount == originalPriceInCents && activeDiscount.discountEndDate.Some? {
        return activeDiscount.discountEndDate.value;
      }
      i := i + 1;
    }
    return NoExpirationEpoch;
  }

  /** With any price other than -1 the two searches pick the same discount. */
  lemma {:induction false} FirstFullDiscountEndAgree(ds: seq<Discount>, priceInCents: int)
    requires priceInCents != NoExpirationEpoch
    ensures LegacyFirstFullDiscountEnd(ds, priceInCents) == FirstFullDiscountEnd(ds, priceInCents)
    decreases |ds|
  {
    if ds != [] {
      FirstFullDiscountEndAgree(ds[1..], priceInCents);
    }
  }

  /** The two trees find the same end date for every item whose original price is not
      -1: they differ only on a discount without an amount. */
  lemma DiscountEndDatesAgree(item: SteamItem)
    requires PriceNoDecimal(item) != Some(NoExpirationEpoch)
    ensures LegacyDiscountEndDate(item) == DiscountEndDate(item)
  {
    if item.bestPurchaseOption.Some? && item.bestPurchaseOption.value.activeDiscounts.Some?
       && item.bestPurchaseOption.value.originalPriceInCents.Some? {
      var option := item.bestPurchaseOption.value;
      FirstFullDiscountEndAgree(option.activeDiscounts.value, option.originalPriceInCents.value);
    }
  }

  /** With a price of -1 the trees disagree: a discount with no amount but an end date
      is taken by the older one and skipped by the newer one. */
  lemma MissingAmountMatchesSentinelPrice(end: int, item: SteamItem)
    requires item.bestPurchaseOption == Some(PurchaseOption(Some(100), Some([Discount(None, Some(end))]), Some(-1)))
    ensures LegacyDiscountEndDate(item) == end
    ensures DiscountEndDate(item) == NoExpirationEpoch
  {
    var ds := [Discount(None, Some(end))];
    assert IsLegacyFullDiscount(ds[0], -1);
    assert !IsFullDiscount(ds[0], -1);
    assert FirstFullDiscountEnd(ds[1..], -1) == None;
  }

  // ---------------------------------------------------------------------------
  // Store media

  /** The older `getStoreMedia`: the same guards; in the loop a non-string field is
      skipped before its text is read. */
  method GetStoreMedia(item: SteamItem) returns (storeMedia: map<string, string>)
    ensures storeMedia == StoreMedia(item)
  {
    if item.assets.None? {
      return map[];
    }
    var assetsNode := item.assets.value;
    var assetUrlFormat := AssetUrlFormat(assetsNode);
    if IsBlank(assetUrlFormat) {
      return map[];
    }
    var cdnUrlFormat := SteamCdnUrl + assetUrlFormat;
    storeMedia := map[];
    var i := 0;
    while i < |assetsNode|
      invariant 0 <= i <= |assetsNode|
      invariant storeMedia == AssetEntries(assetsNode[..i], cdnUrlFormat)
    {
      assert assetsNode[..i + 1][..i] == assetsNode[..i];
      var field := assetsNode[i];
      if !field.isString {
        i := i + 1;
        continue;
      }
      var fieldValue := field.text;
      if !Contains(fieldValue, ".") {
        i := i + 1;
        continue;
      }
      var url := Replace(cdnUrlFormat, "${FILENAME}", fieldValue);
      storeMedia := storeMedia[field.key := url];
      i := i + 1;
    }
    assert assetsNode[..i] == assetsNode;
  }

  // ---------------------------------------------------------------------------
  // Item conversion and results

  /** The older `convertItemNodeToScrapperResult`: the newer filters and game, with the
      older end-date search deciding between a ready and a pending result. */
  function LegacyConvertItem(item: SteamItem, includeDLCs: bool, allowMature: bool, formatPrice: int -> string): (r: Option<Produced>)
    ensures r.Some? <==> IsFree(item) && (includeDLCs || !IsDLC(item))
    ensures r.Some? ==> (r.value.ReadyGame? <==> LegacyDiscountEndDate(item) != NoExpirationEpoch)
    ensures r.Some? ==> r.value.game == WithExpirationEpoch(ListingGame(item, allowMature, formatPrice), LegacyDiscountEndDate(item))
  {
    if !IsFree(item) then None
    else if IsDLC(item) && !includeDLCs then None
    else Some(ResultWithExpirationEpoch(LegacyDiscountEndDate(item), ListingGame(item, allowMature, formatPrice)))
  }

  /** Outside the price -1 corner the older conversion is the newer one. */
  lemma ConvertItemsAgree(item: SteamItem, includeDLCs: bool, allowMature: bool, formatPrice: int -> string)
    requires PriceNoDecimal(item) != Some(NoExpirationEpoch)
    ensures LegacyConvertItem(item, includeDLCs, allowMature, formatPrice) == ConvertItem(item, includeDLCs, allowMature, formatPrice)
  {
    DiscountEndDatesAgree(item);
  }

  /** The ordered list of the items' conversions by `convert`, in item order. */
  function CollectList(items: seq<SteamItem>, convert: SteamItem -> Option<Produced>): seq<Produced>
  {
    if items == [] then []
    else
      var acc := CollectList(items[..|items| - 1], convert);
      match convert(items[|items| - 1])
      case None => acc
      case Some(p) => acc + [p]
  }

  lemma {:induction false} CollectListAppend(a: seq<SteamItem>, b: seq<SteamItem>, convert: SteamItem -> Option<Produced>)
    ensures CollectList(a + b, convert) == CollectList(a, convert) + CollectList(b, convert)
    decreases |b|
  {
    if b == [] {
      assert a + b == a;
    } else {
      var b' := b[..|b| - 1];
      assert (a + b)[..|a + b| - 1] == a + b';
      assert (a + b)[|a + b| - 1] == b[|b| - 1];
      CollectListAppend(a, b', convert);
    }
  }

  lemma {:induction false} CollectListMembers(items: seq<SteamItem>, convert: SteamItem -> Option<Produced>, p: Produced)
    ensures p in CollectList(items, convert) <==> exists i :: 0 <= i < |items| && convert(items[i]) == Some(p)
    decreases |items|
  {
    if items != [] {
      var init := items[..|items| - 1];
      CollectListMembers(init, convert, p);
      assert forall i :: 0 <= i < |init| ==> init[i] == items[i];
    }
  }

  /** The ordered result list: every item that converts, in item order. */
  function ResultList(items: seq<SteamItem>, includeDLCs: bool, allowMature: bool, formatPrice: int -> string): seq<Produced>
  {
    CollectList(items, item => LegacyConvertItem(item, includeDLCs, allowMature, formatPrice))
  }

  /** The list is built item by item: the results of a concatenation of item lists are
      the concatenated results, so nothing is merged or reordered. */
  lemma ResultListAppend(a: seq<SteamItem>, b: seq<SteamItem>, includeDLCs: bool, allowMature: bool, formatPrice: int -> string)
    ensures ResultList(a + b, includeDLCs, allowMature, formatPrice)
            == ResultList(a, includeDLCs, allowMature, formatPrice) + ResultList(b, includeDLCs, allowMature, formatPrice)
  {
    CollectListAppend(a, b, item => LegacyConvertItem(item, includeDLCs, allowMature, formatPrice));
  }

  /** Every listed result is the conversion of some item, and every item that converts
      is listed. */
  lemma ResultListMembers(items: seq<SteamItem>, includeDLCs: bool, allowMature: bool, formatPrice: int -> string, p: Produced)
    ensures p in ResultList(items, includeDLCs, allowMature, formatPrice) <==>
              exists i :: 0 <= i < |items| && LegacyConvertItem(items[i], includeDLCs, allowMature, formatPrice) == Some(p)
  {
    CollectListMembers(items, item => LegacyConvertItem(item, includeDLCs, allowMature, formatPrice), p);
  }

  /** What the older `retrieveResults` returns: the same guards as the newer one, with
      a request that throws IOException becoming "Unable to retrieve games from Steam". */
  function LegacyRetrieveResultsSpec(freeGames: Response<seq<GameNode>>, getItems: string -> Response<seq<SteamItem>>,
                                     includeDLCs: bool, allowMature: bool, formatPrice: int -> string): Result<seq<Produced>>
  {
    match freeGames
    case Err(_) => Err(RequestFailed)
    case Ok(None) => Err("Unable to retrieve games lists from Steam")
    case Ok(Some(gameList)) =>
      match JoinIdsSpec(gameList)
      case Err(e) => Err(e)
      case Ok(jsonIdList) =>
        match getItems(jsonIdList)
        case Err(_) => Err(RequestFailed)
        case Ok(None) => Ok([])
        case Ok(Some(items)) => Ok(ResultList(items, includeDLCs, allowMature, formatPrice))
  }

  /** The older `retrieveResults` fails exactly when a request throws, the free game
      list is empty, or an id cannot be cut out of a listing URL; otherwise its list
      holds every item that converts, and only those. */
  lemma LegacyRetrieveResultsOutcome(freeGames: Response<seq<GameNode>>, getItems: string -> Response<seq<SteamItem>>,
                                     includeDLCs: bool, allowMature: bool, formatPrice: int -> string)
    ensures var r := LegacyRetrieveResultsSpec(freeGames, getItems, includeDLCs, allowMature, formatPrice);
            r.Err? <==> freeGames.Err? || freeGames.value.None?
                        || (freeGames.value.Some?
                            && (JoinIdsSpec(freeGames.value.value).Err?
                                || getItems(JoinIdsSpec(freeGames.value.value).value).Err?))
    ensures freeGames.Err? ==> LegacyRetrieveResultsSpec(freeGames, getItems, includeDLCs, allowMature, formatPrice) == Err(RequestFailed)
    ensures freeGames.Ok? && freeGames.value.Some? && JoinIdsSpec(freeGames.value.value).Ok?
            && getItems(JoinIdsSpec(freeGames.value.value).value).Err?
            ==> LegacyRetrieveResultsSpec(freeGames, getItems, includeDLCs, allowMature, formatPrice) == Err(RequestFailed)
    ensures forall p :: (LegacyRetrieveResultsSpec(freeGames, getItems, includeDLCs, allowMature, formatPrice).Ok?
                         && p in LegacyRetrieveResultsSpec(freeGames, getItems, includeDLCs, allowMature, formatPrice).value)
                        ==> (freeGames.Ok? && freeGames.value.Some? && JoinIdsSpec(freeGames.value.value).Ok?
                             && var items := getItems(JoinIdsSpec(freeGames.value.value).value);
                                items.Ok? && items.value.Some?
                                && exists i :: 0 <= i < |items.value.value|
                                               && LegacyConvertItem(items.value.value[i], includeDLCs, allowMature, formatPrice) == Some(p))
  {
    var r := LegacyRetrieveResultsSpec(freeGames, getItems, includeDLCs, allowMature, formatPrice);
    forall p | r.Ok? && p in r.value
      ensures freeGames.Ok? && freeGames.value.Some? && JoinIdsSpec(freeGames.value.value).Ok?
              && var items := getItems(JoinIdsSpec(freeGames.value.value).value);
                 items.Ok? && items.value.Some?
                 && exists i :: 0 <= i < |items.value.value|
                                && LegacyConvertItem(items.value.value[i], includeDLCs, allowMature, formatPrice) == Some(p)
    {
      var items := getItems(JoinIdsSpec(freeGames.value.value).value);
      ResultListMembers(items.value.value, includeDLCs, allowMature, formatPrice, p);
    }
  }

  /** The older `retrieveResults`: converted items appended to an ArrayList. */
  method RetrieveResults(freeGames: Response<seq<GameNode>>, getItems: string -> Response<seq<SteamItem>>,
                         includeDLCs: bool, allowMature: bool, formatPrice: int -> string)
    returns (r: Result<seq<Produced>>)
    ensures r == LegacyRetrieveResultsSpec(freeGames, getItems, includeDLCs, allowMature, formatPrice)
  {
    if freeGames.Err? {
      return Err(RequestFailed);
    }
    if freeGames.value.None? {
      return Err("Unable to retrieve games lists from Steam");
    }
    var gameList := freeGames.value.value;
    var jsonIdList := JoinIds(gameList);
    if jsonIdList.Err? {
      return Err(jsonIdList.reason);
    }
    var itemListNodeOptional := getItems(jsonIdList.value);
    if itemListNodeOptional.Err? {
      return Err(RequestFailed);
    }
    if itemListNodeOptional.value.None? {
      return Ok([]);
    }
    var itemListNode := itemListNodeOptional.value.value;
    var results: seq<Produced> := [];
    var i := 0;
    while i < |itemListNode|
      invariant 0 <= i <= |itemListNode|
      invariant results == ResultList(itemListNode[..i], includeDLCs, allowMature, formatPrice)
    {
      assert itemListNode[..i + 1][..i] == itemListNode[..i];
      var scraperResult := LegacyConvertItem(itemListNode[i], includeDLCs, allowMature, formatPrice);
      if scraperResult.Some? {
        results := results + [scraperResult.value];
      }
      i := i + 1;
    }
    assert itemListNode[..i] == itemListNode;
    return Ok(results);
  }
}
