/** The newer SteamScraper (io.github tree). The JSON returned by Steam's
    IStoreBrowseService/GetItems endpoint is modelled by the datatypes below; a field
    read through `Optional.ofNullable`/`has` is an Option, a field read unguarded is
    plain. Numbers are the values `asInt`/`asLong` give. The helpers that turn the free
    game list into the id list (`joinIds`, `convertGameNodeToJson`, `extractId`) and the
    screenshot helpers are textually the same in the older SteamScraper and are modelled
    once, here. */
module SteamScraper {
  import opened Common
  import opened Strings
  import opened Domain

  // ---------------------------------------------------------------------------
  // JSON shapes

  /** An element of `best_purchase_option.active_discounts`. */
  datatype Discount = Discount(discountAmount: Option<int>, discountEndDate: Option<int>)

  /** `best_purchase_option`. */
  datatype PurchaseOption = PurchaseOption(
    discountPct: Option<int>,
    activeDiscounts: Option<seq<Discount>>,
    originalPriceInCents: Option<int>)

  /** One field of a JSON object: its key, whether the value is a JSON string, and the
      value's `asText()`. */
  datatype JsonField = JsonField(key: string, isString: bool, text: string)

  /** An element of a screenshot array; `filename` is its `asText()` when present. */
  datatype Screenshot = Screenshot(filename: Option<string>)

  /** `screenshots`. */
  datatype ScreenshotsNode = ScreenshotsNode(
    allAgesScreenshots: Option<seq<Screenshot>>,
    matureContentScreenshots: Option<seq<Screenshot>>)

  /** `related_items`, and whether it holds `parent_appid`. */
  datatype RelatedItems = RelatedItems(hasParentAppid: bool)

  /** `basic_info` and its `short_description`. */
  datatype BasicInfo = BasicInfo(shortDescription: Option<string>)

  /** One item node of the GetItems response. */
  datatype SteamItem = SteamItem(
    name: string,
    storeUrlPath: string,
    bestPurchaseOption: Option<PurchaseOption>,
    relatedItems: Option<RelatedItems>,
    basicInfo: Option<BasicInfo>,
    assets: Option<seq<JsonField>>,
    screenshots: Option<ScreenshotsNode>)

  /** An element of the free game list: only its `logo` URL is read. */
  datatype GameNode = GameNode(logo: string)

  // ---------------------------------------------------------------------------
  // Free and DLC filters

  /** `discount_pct` of the best purchase option, 0 when either is missing. */
  function DiscountPct(item: SteamItem): int {
    match item.bestPurchaseOption
    case None => 0
    case Some(option) => match option.discountPct case None => 0 case Some(pct) => pct
  }

  /** An item is free when its discount is 100%. */
  predicate IsFree(item: SteamItem) {
    DiscountPct(item) == 100
  }

  /** An item is a DLC when it has `related_items.parent_appid`. */
  predicate IsDLC(item: SteamItem) {
    item.relatedItems.Some? && item.relatedItems.value.hasParentAppid
  }

  // ---------------------------------------------------------------------------
  // Discount end date

  /** The newer tree's test for "this discount is the 100% one": a present
      `discount_amount` equal to the original price. */
  predicate IsFullDiscount(d: Discount, priceInCents: int) {
    d.discountAmount == Some(priceInCents)
  }

  /** The end date of the first full discount that has one. */
  function FirstFullDiscountEnd(ds: seq<Discount>, priceInCents: int): (r: Option<int>)
    ensures r.Some? ==> exists k :: 0 <= k < |ds| && IsFullDiscount(ds[k], priceInCents)
                                    && ds[k].discountEndDate == r
                                    && forall j :: 0 <= j < k ==> !(IsFullDiscount(ds[j], priceInCents) && ds[j].discountEndDate.Some?)
    ensures r.None? ==> forall k :: 0 <= k < |ds| ==> !(IsFullDiscount(ds[k], priceInCents) && ds[k].discountEndDate.Some?)
  {
    if ds == [] then None
    else if IsFullDiscount(ds[0], priceInCents) && ds[0].discountEndDate.Some? then
      assert IsFullDiscount(ds[0], priceInCents);
      ds[0].discountEndDate
    else
      var r := FirstFullDiscountEnd(ds[1..], priceInCents);
      assert forall k :: 0 <= k < |ds| - 1 ==> ds[1..][k] == ds[k + 1];
      if r.Some? then
        var k :| 0 <= k < |ds| - 1 && IsFullDiscount(ds[1..][k], priceInCents) && ds[1..][k].discountEndDate == r
                 && forall j :: 0 <= j < k ==> !(IsFullDiscount(ds[1..][j], priceInCents) && ds[1..][j].discountEndDate.Some?);
        assert IsFullDiscount(ds[k + 1], priceInCents) && ds[k + 1].discountEndDate == r;
        r
      else r
  }

  /** What `extractDiscountEndDate` returns: the sentinel when the purchase option, its
      active discounts or its original price is missing, else the first full discount's
      end date, else the sentinel. */
  function DiscountEndDate(item: SteamItem): (epoch: int)
    ensures item.bestPurchaseOption.None? ==> epoch == NoExpirationEpoch
    ensures item.bestPurchaseOption.Some? && item.bestPurchaseOption.value.activeDiscounts.None? ==> epoch == NoExpirationEpoch
    ensures item.bestPurchaseOption.Some? && item.bestPurchaseOption.value.originalPriceInCents.None? ==> epoch == NoExpirationEpoch
  {
    match item.bestPurchaseOption
    case None => NoExpirationEpoch
    case Some(option) =>
      if option.activeDiscounts.None? || option.originalPriceInCents.None? then NoExpirationEpoch
      else match FirstFullDiscountEnd(option.activeDiscounts.value, option.originalPriceInCents.value)
        case Some(end) => end
        case None => NoExpirationEpoch
  }

  /** `extractDiscountEndDate`: the guard chain, then a scan of the active discounts
      that returns at the first full discount with an end date. */
  method ExtractDiscountEndDate(item: SteamItem) returns (epoch: int)
    ensures epoch == DiscountEndDate(item)
  {
    if item.bestPurchaseOption.None? {
      return NoExpirationEpoch;
    }
    var bestPurchaseOption := item.bestPurchaseOption.value;
    if bestPurchaseOption.activeDiscounts.None? {
      return NoExpirationEpoch;
    }
    var activeDiscounts := bestPurchaseOption.activeDiscounts.value;
    if bestPurchaseOption.originalPriceInCents.None? {
      return NoExpirationEpoch;
    }
    var originalPriceInCents := bestPurchaseOption.originalPriceInCents.value;
    var i := 0;
    while i < |activeDiscounts|
      invariant 0 <= i <= |activeDiscounts|
      invariant FirstFullDiscountEnd(activeDiscounts, originalPriceInCents)
             == FirstFullDiscountEnd(activeDiscounts[i..], originalPriceInCents)
    {
      var activeDiscount := activeDiscounts[i];
      assert activeDiscounts[i..][1..] == activeDiscounts[i + 1..];
      var isCorrectDiscount := activeDiscount.discountAmount.Some?
                               && activeDiscount.discountAmount.value == originalPriceInCents;
      if isCorrectDiscount && activeDiscount.discountEndDate.Some? {
        return activeDiscount.discountEndDate.value;
      }
      i := i + 1;
    }
    return NoExpirationEpoch;
  }

  // ---------------------------------------------------------------------------
  // Store media

  /** `get(key)` on a JSON object given as its fields (the last field with the key). */
  function Lookup(fields: seq<JsonField>, key: string): (r: Option<JsonField>)
    ensures r.Some? ==> r.value in fields && r.value.key == key
    ensures r.None? ==> forall i :: 0 <= i < |fields| ==> fields[i].key != key
  {
    if fields == [] then None
    else if fields[|fields| - 1].key == key then Some(fields[|fields| - 1])
    else Lookup(fields[..|fields| - 1], key)
  }

  /** `asset_url_format` as text, "" when missing. */
  function AssetUrlFormat(assets: seq<JsonField>): string {
    match Lookup(assets, "asset_url_format")
    case None => ""
    case Some(f) => f.text
  }

  /** A field that names a file: a string value containing ".". */
  predicate IsFileField(f: JsonField) {
    f.isString && Contains(f.text, ".")
  }

  /** The CDN URL of a file: the URL format with `${FILENAME}` replaced. */
  function AssetUrl(cdnUrlFormat: string, filename: string): string {
    Replace(cdnUrlFormat, "${FILENAME}", filename)
  }

  /** The map the asset loop builds: every file field, keyed by its field name, later
      fields overwriting earlier ones. */
  function AssetEntries(fields: seq<JsonField>, cdnUrlFormat: string): (m: map<string, string>)
    ensures forall k :: k in m ==> k in KeysOf(fields)
  {
    if fields == [] then map[]
    else
      var f := fields[|fields| - 1];
      var m := AssetEntries(fields[..|fields| - 1], cdnUrlFormat);
      if IsFileField(f) then m[f.key := AssetUrl(cdnUrlFormat, f.text)] else m
  }

  function KeysOf(fields: seq<JsonField>): set<string> {
    set i | 0 <= i < |fields| :: fields[i].key
  }

  /** A key is in the store media map exactly when some file field has it, and it maps
      to the CDN URL of such a field. */
  lemma {:induction false} AssetEntriesMembers(fields: seq<JsonField>, cdnUrlFormat: string, k: string)
    ensures k in AssetEntries(fields, cdnUrlFormat) <==>
              exists i :: 0 <= i < |fields| && fields[i].key == k && IsFileField(fields[i])
    ensures k in AssetEntries(fields, cdnUrlFormat) ==>
              exists i :: 0 <= i < |fields| && fields[i].key == k && IsFileField(fields[i])
                          && AssetEntries(fields, cdnUrlFormat)[k] == AssetUrl(cdnUrlFormat, fields[i].text)
    decreases |fields|
  {
    if fields != [] {
      var init := fields[..|fields| - 1];
      AssetEntriesMembers(init, cdnUrlFormat, k);
      assert forall i :: 0 <= i < |init| ==> init[i] == fields[i];
    }
  }

  /** What `getStoreMedia` returns: nothing without assets or with a blank URL format,
      else the file fields mapped to CDN URLs. */
  function StoreMedia(item: SteamItem): (m: map<string, string>)
    ensures item.assets.None? ==> m == map[]
    ensures item.assets.Some? && IsBlank(AssetUrlFormat(item.assets.value)) ==> m == map[]
  {
    match item.assets
    case None => map[]
    case Some(assets) =>
      var format := AssetUrlFormat(assets);
      if IsBlank(format) then map[] else AssetEntries(assets, SteamCdnUrl + format)
  }

  /** `getStoreMedia`: the guards, then a loop over the asset fields. */
  method GetStoreMedia(item: SteamItem) returns (storeMedia: map<string, string>)
    ensures storeMedia == StoreMedia(item)
  {
    if item.assets.None? {
      return map[];
    }
    var assetsNode := item.assets.value;
    var assetUrlFormat := AssetUrlFormat(assetsNode);
    if IsBlank(assetUrlFormat) {
      return map[];
    }
    var cdnUrlFormat := SteamCdnUrl + assetUrlFormat;
    storeMedia := map[];
    var i := 0;
    while i < |assetsNode|
      invariant 0 <= i <= |assetsNode|
      invariant storeMedia == AssetEntries(assetsNode[..i], cdnUrlFormat)
    {
      assert assetsNode[..i + 1][..i] == assetsNode[..i];
      var field := assetsNode[i];
      var fieldValue := if field.isString then field.text else "";
      if !Contains(fieldValue, ".") {
        i := i + 1;
        continue;
      }
      var url := Replace(cdnUrlFormat, "${FILENAME}", fieldValue);
      storeMedia := storeMedia[field.key := url];
      i := i + 1;
    }
    assert assetsNode[..i] == assetsNode;
  }

  // ---------------------------------------------------------------------------
  // Screenshots

  /** A screenshot's filename, "" when missing. */
  function Filename(s: Screenshot): string {
    match s.filename case None => "" case Some(f) => f
  }

  /** The CDN URL of every screenshot with a non-blank filename, in order. */
  function ScreenshotUrls(shots: seq<Screenshot>): (urls: seq<string>)
    ensures |urls| <= |shots|
    ensures forall u :: u in urls ==> SteamCdnUrl <= u && !IsBlank(u[|SteamCdnUrl|..])
  {
    if shots == [] then []
    else
      var f := Filename(shots[|shots| - 1]);
      ScreenshotUrls(shots[..|shots| - 1]) + (if IsBlank(f) then [] else [SteamCdnUrl + f])
  }

  /** A URL is listed exactly when some screenshot has a non-blank filename and the URL
      is the CDN prefix followed by it. */
  lemma {:induction false} ScreenshotUrlsMembers(shots: seq<Screenshot>, u: string)
    ensures u in ScreenshotUrls(shots) <==>
              exists i :: 0 <= i < |shots| && !IsBlank(Filename(shots[i])) && u == SteamCdnUrl + Filename(shots[i])
    decreases |shots|
  {
    if shots != [] {
      var init := shots[..|shots| - 1];
      ScreenshotUrlsMembers(init, u);
      assert forall i :: 0 <= i < |init| ==> init[i] == shots[i];
    }
  }

  /** `extractScreenshots`. */
  method ExtractScreenshots(shots: seq<Screenshot>) returns (screenshots: seq<string>)
    ensures screenshots == ScreenshotUrls(shots)
  {
    screenshots := [];
    var i := 0;
    while i < |shots|
      invariant 0 <= i <= |shots|
      invariant screenshots == ScreenshotUrls(shots[..i])
    {
      assert shots[..i + 1][..i] == shots[..i];
      var filename := Filename(shots[i]);
      if !IsBlank(filename) {
        screenshots := screenshots + [SteamCdnUrl + filename];
      }
      i := i + 1;
    }
    assert shots[..i] == shots;
  }

  /** What `getScreenshots` returns: the all-ages screenshots, then, only when mature
      screenshots are allowed, the mature ones. */
  function Screenshots(item: SteamItem, allowMature: bool): seq<string> {
    match item.screenshots
    case None => []
    case Some(node) =>
      (match node.allAgesScreenshots case None => [] case Some(shots) => ScreenshotUrls(shots))
      + (if allowMature && node.matureContentScreenshots.Some?
         then ScreenshotUrls(node.matureContentScreenshots.value) else [])
  }

  /** `getScreenshots`. */
  method GetScreenshots(item: SteamItem, allowMature: bool) returns (screenshots: seq<string>)
    ensures screenshots == Screenshots(item, allowMature)
  {
    screenshots := [];
    if item.screenshots.None? {
      return;
    }
    var screenshotsNode := item.screenshots.value;
    if screenshotsNode.allAgesScreenshots.Some? {
      var allAges := ExtractScreenshots(screenshotsNode.allAgesScreenshots.value);
      screenshots := screenshots + allAges;
    }
    if allowMature && screenshotsNode.matureContentScreenshots.Some? {
      var mature := ExtractScreenshots(screenshotsNode.matureContentScreenshots.value);
      screenshots := screenshots + mature;
    }
  }

  /** Mature screenshots only ever extend the list: the all-ages ones come first and
      are the same whether or not mature ones are allowed. */
  lemma MatureScreenshotsAppended(item: SteamItem)
    ensures Screenshots(item, false) <= Screenshots(item, true)
    ensures item.screenshots.Some? && item.screenshots.value.matureContentScreenshots.None? ==>
              Screenshots(item, false) == Screenshots(item, true)
  {
  }

  // ---------------------------------------------------------------------------
  // Item conversion

  /** The item's description: `basic_info.short_description`, or "N/A". */
  function Description(item: SteamItem): string {
    match item.basicInfo
    case None => "N/A"
    case Some(info) => match info.shortDescription case None => "N/A" case Some(d) => d
  }

  /** `getResultWithExpirationEpoch`, given the epoch its item yields: a ready game
      carrying a found epoch, or, with the sentinel, the game handed to the web scraper. */
  function ResultWithExpirationEpoch(expirationEpoch: int, game: Game): (p: Produced)
    ensures p.ReadyGame? <==> expirationEpoch != NoExpirationEpoch
    ensures p.ReadyGame? ==> p.game == WithExpirationEpoch(game, expirationEpoch)
    ensures p.ScrapeLater? ==> p.game == game
  {
    if expirationEpoch != NoExpirationEpoch then ReadyGame(WithExpirationEpoch(game, expirationEpoch))
    else ScrapeLater(game)
  }

  /** `original_price_in_cents` of the best purchase option, when both are present. */
  function PriceNoDecimal(item: SteamItem): Option<int> {
    match item.bestPurchaseOption
    case None => None
    case Some(option) => option.originalPriceInCents
  }

  /** The game the builder chain of `convertItemNodeToScrapperResult` builds, before
      the expiration epoch is looked for. `formatPrice` stands for
      `originalPrice(priceInCents, 2)`, the locale currency formatting. */
  function ListingGame(item: SteamItem, allowMature: bool, formatPrice: int -> string): (g: Game)
    ensures g.title == Some(item.name) && g.description == Some(Description(item))
    ensures g.url == Some(SteamStoreUrl + item.storeUrlPath) && g.isDLC == IsDLC(item)
    ensures g.platform == Steam && g.storeMedia == StoreMedia(item) && g.media == Screenshots(item, allowMature)
    ensures g.originalPrice == (if PriceNoDecimal(item).Some? then formatPrice(PriceNoDecimal(item).value) else "N/A")
    ensures g.expirationEpoch == NoExpirationEpoch
  {
    var game := Builder().(title := Some(item.name), description := Some(Description(item)),
                           url := Some(SteamStoreUrl + item.storeUrlPath), isDLC := IsDLC(item),
                           platform := Steam, storeMedia := StoreMedia(item),
                           media := Screenshots(item, allowMature));
    if PriceNoDecimal(item).Some? then WithOriginalPrice(game, formatPrice(PriceNoDecimal(item).value)) else game
  }

  /** `convertItemNodeToScrapperResult`: None (Java null) for an item that is not free,
      or a DLC while DLCs are excluded. */
  function ConvertItem(item: SteamItem, includeDLCs: bool, allowMature: bool, formatPrice: int -> string): (r: Option<Produced>)
    ensures r.Some? <==> IsFree(item) && (includeDLCs || !IsDLC(item))
    ensures r.Some? ==>
              var g := r.value.game;
              g.title == Some(item.name) && g.description == Some(Description(item))
              && g.url == Some(SteamStoreUrl + item.storeUrlPath) && g.isDLC == IsDLC(item)
              && g.platform == Steam && g.storeMedia == StoreMedia(item)
              && g.media == Screenshots(item, allowMature)
    ensures r.Some? ==> (r.value.ReadyGame? <==> DiscountEndDate(item) != NoExpirationEpoch)
    ensures r.Some? ==> r.value.game.expirationEpoch == DiscountEndDate(item)
    ensures r.Some? ==>
              r.value.game.originalPrice == (if PriceNoDecimal(item).Some? then formatPrice(PriceNoDecimal(item).value) else "N/A")
  {
    if !IsFree(item) then None
    else if IsDLC(item) && !includeDLCs then None
    else Some(ResultWithExpirationEpoch(DiscountEndDate(item), ListingGame(item, allowMature, formatPrice)))
  }

  // ---------------------------------------------------------------------------
  // Free game list to GetItems id list

  /** Whether `substring(indexOf(type + "/") + type.length() + 1, lastIndexOf("/"))`
      stays in bounds; outside them Java throws StringIndexOutOfBoundsException. */
  predicate IdBoundsOk(logoUrl: string, kind: string) {
    0 <= IndexOf(logoUrl, kind + "/") + |kind| + 1 <= LastIndexOf(logoUrl, "/")
  }

  /** `extractId`: the text after the first `type/` up to the last "/". */
  function ExtractId(logoUrl: string, kind: string): (id: string)
    requires IdBoundsOk(logoUrl, kind)
    ensures var t := IndexOf(logoUrl, kind + "/");
            var e := LastIndexOf(logoUrl, "/");
            t >= 0 ==> logoUrl == logoUrl[..t] + kind + "/" + id + logoUrl[e..]
    ensures var e := LastIndexOf(logoUrl, "/");
            logoUrl[e] == '/' && forall j :: e < j < |logoUrl| ==> logoUrl[j] != '/'
  {
    var t := IndexOf(logoUrl, kind + "/");
    var e := LastIndexOf(logoUrl, "/");
    ExtractIdBounds(logoUrl, kind);
    logoUrl[t + |kind| + 1..e]
  }

  lemma ExtractIdBounds(logoUrl: string, kind: string)
    requires IdBoundsOk(logoUrl, kind)
    ensures var t := IndexOf(logoUrl, kind + "/");
            var e := LastIndexOf(logoUrl, "/");
            t >= 0 ==> logoUrl == logoUrl[..t] + kind + "/" + logoUrl[t + |kind| + 1..e] + logoUrl[e..]
    ensures var e := LastIndexOf(logoUrl, "/");
            logoUrl[e] == '/' && forall j :: e < j < |logoUrl| ==> logoUrl[j] != '/'
  {
    LastSlash(logoUrl);
    var t := IndexOf(logoUrl, kind + "/");
    if t >= 0 {
      SplitAroundPair(logoUrl, kind, t, LastIndexOf(logoUrl, "/"));
    }
  }

  lemma SplitAroundPair(s: string, kind: string, i: int, e: int)
    requires OccursAt(s, kind + "/", i) && i + |kind| + 1 <= e <= |s|
    ensures s == s[..i] + kind + "/" + s[i + |kind| + 1..e] + s[e..]
  {
    SplitAround(s, kind + "/", i, e);
  }

  lemma LastSlash(s: string)
    ensures var e := LastIndexOf(s, "/");
            e >= 0 ==> e < |s| && s[e] == '/' && forall j :: e < j < |s| ==> s[j] != '/'
  {
    assert "/" == ['/'];
    LastIndexOfChar(s, '/');
  }

  lemma SplitAround(s: string, t: string, i: int, e: int)
    requires OccursAt(s, t, i) && i + |t| <= e <= |s|
    ensures s == s[..i] + t + s[i + |t|..e] + s[e..]
  {
    assert s == s[..i] + s[i..i + |t|] + s[i + |t|..e] + s[e..];
  }

  /** The request JSON for one id. */
  function IdJson(field: string, id: string): string {
    "{\"" + field + "\":" + id + "}"
  }

  /** `extractId` wrapped with the exception it throws out of bounds. */
  function IdJsonOrThrow(logoUrl: string, kind: string, field: string): (r: Result<Option<string>>)
    ensures r.Ok? <==> IdBoundsOk(logoUrl, kind)
    ensures r.Ok? ==> r.value == Some(IdJson(field, ExtractId(logoUrl, kind)))
  {
    if IdBoundsOk(logoUrl, kind) then Ok(Some(IdJson(field, ExtractId(logoUrl, kind))))
    else Err("StringIndexOutOfBoundsException")
  }

  /** `convertGameNodeToJson`: the logo URL is checked for "apps", then "subs", then
      "bundles"; the first that occurs decides the id field; none gives null. */
  function ConvertGameNodeToJson(node: GameNode): Result<Option<string>> {
    var logoUrl := node.logo;
    if Contains(logoUrl, "apps") then IdJsonOrThrow(logoUrl, "apps", "appId")
    else if Contains(logoUrl, "subs") then IdJsonOrThrow(logoUrl, "subs", "packageId")
    else if Contains(logoUrl, "bundles") then IdJsonOrThrow(logoUrl, "bundles", "bundleId")
    else Ok(None)
  }

  /** A node gives no id exactly when its logo names none of the three kinds; otherwise
      the first kind found, in the order apps, subs, bundles, decides the id field. */
  lemma ConvertGameNodeToJsonOrder(node: GameNode)
    ensures ConvertGameNodeToJson(node) == Ok(None) <==>
              !Contains(node.logo, "apps") && !Contains(node.logo, "subs") && !Contains(node.logo, "bundles")
    ensures Contains(node.logo, "apps") ==> ConvertGameNodeToJson(node) == IdJsonOrThrow(node.logo, "apps", "appId")
    ensures !Contains(node.logo, "apps") && Contains(node.logo, "subs") ==>
              ConvertGameNodeToJson(node) == IdJsonOrThrow(node.logo, "subs", "packageId")
    ensures !Contains(node.logo, "apps") && !Contains(node.logo, "subs") && Contains(node.logo, "bundles") ==>
              ConvertGameNodeToJson(node) == IdJsonOrThrow(node.logo, "bundles", "bundleId")
  {
  }

  /** `prefix` put in front of a successful result. */
  function Prepend(prefix: string, r: Result<string>): Result<string> {
    match r case Ok(s) => Ok(prefix + s) case Err(e) => Err(e)
  }

  /** The conversions of the nodes, one per node, in iterator order. */
  function Converted(nodes: seq<GameNode>): seq<Result<Option<string>>> {
    seq(|nodes|, i requires 0 <= i < |nodes| => ConvertGameNodeToJson(nodes[i]))
  }

  /** Joining conversions: the id JSON of every entry that has one, each followed by ","
      whenever any entry (with or without an id) comes after it; the first exception
      propagates. */
  function JoinResults(rs: seq<Result<Option<string>>>): Result<string> {
    if rs == [] then Ok("")
    else match rs[0]
      case Err(e) => Err(e)
      case Ok(None) => JoinResults(rs[1..])
      case Ok(Some(idJson)) => Prepend(idJson + (if |rs| > 1 then "," else ""), JoinResults(rs[1..]))
  }

  /** What `joinIds` returns for a node list. */
  function JoinIdsSpec(nodes: seq<GameNode>): Result<string> {
    JoinResults(Converted(nodes))
  }

  lemma PrependPrepend(a: string, b: string, r: Result<string>)
    ensures Prepend(a, Prepend(b, r)) == Prepend(a + b, r)
  {
    if r.Ok? {
      assert a + (b + r.value) == (a + b) + r.value;
    }
  }

  /** `joinIds`' invariant survives a node that yields no id. */
  lemma JoinIdsSkip(rs: seq<Result<Option<string>>>, i: nat, built: string, whole: Result<string>)
    requires i < |rs| && rs[i] == Ok(None)
    requires whole == Prepend(built, JoinResults(rs[i..]))
    ensures whole == Prepend(built, JoinResults(rs[i + 1..]))
  {
    assert rs[i..][1..] == rs[i + 1..];
  }

  /** `joinIds`' invariant survives appending a node's id and, when a node follows, ",". */
  lemma JoinIdsAppend(rs: seq<Result<Option<string>>>, i: nat, built: string, idJson: string, whole: Result<string>)
    requires i < |rs| && rs[i] == Ok(Some(idJson))
    requires whole == Prepend(built, JoinResults(rs[i..]))
    ensures whole == Prepend(built + idJson + (if i + 1 < |rs| then "," else ""), JoinResults(rs[i + 1..]))
  {
    assert rs[i..][1..] == rs[i + 1..];
    var delimiter := if i + 1 < |rs| then "," else "";
    PrependPrepend(built, idJson + delimiter, JoinResults(rs[i + 1..]));
    assert built + (idJson + delimiter) == built + idJson + delimiter;
  }

  /** An exception at node `i` is what the whole walk yields. */
  lemma JoinIdsFails(rs: seq<Result<Option<string>>>, i: nat, built: string, whole: Result<string>)
    requires i < |rs| && rs[i].Err?
    requires whole == Prepend(built, JoinResults(rs[i..]))
    ensures whole == Err(rs[i].reason)
  {
    assert rs[i..][0] == rs[i];
  }

  lemma PrependEmpty(r: Result<string>)
    ensures Prepend("", r) == r
  {
    if r.Ok? {
      assert "" + r.value == r.value;
    }
  }

  /** `joinIds`: appends to a StringBuilder while walking the iterator. */
  method JoinIds(nodes: seq<GameNode>) returns (r: Result<string>)
    ensures r == JoinIdsSpec(nodes)
  {
    ghost var rs := Converted(nodes);
    var idStringBuilder := "";
    var i := 0;
    assert rs[0..] == rs;
    PrependEmpty(JoinIdsSpec(nodes));
    while i < |nodes|
      invariant 0 <= i <= |nodes|
      invariant JoinIdsSpec(nodes) == Prepend(idStringBuilder, JoinResults(rs[i..]))
    {
      var idJson := ConvertGameNodeToJson(nodes[i]);
      assert rs[i] == idJson;
      if idJson.Err? {
        JoinIdsFails(rs, i, idStringBuilder, JoinIdsSpec(nodes));
        return Err(idJson.reason);
      }
      if idJson.value.None? {
        JoinIdsSkip(rs, i, idStringBuilder, JoinIdsSpec(nodes));
        i := i + 1;
        continue;
      }
      JoinIdsAppend(rs, i, idStringBuilder, idJson.value.value, JoinIdsSpec(nodes));
      idStringBuilder := idStringBuilder + idJson.value.value;
      if i + 1 < |nodes| {
        idStringBuilder := idStringBuilder + ",";
      } else {
        assert idStringBuilder + "" == idStringBuilder;
      }
      i := i + 1;
    }
    assert JoinResults(rs[i..]) == Ok("");
    assert idStringBuilder + "" == idStringBuilder;
    return Ok(idStringBuilder);
  }

  /** When every node yields an id, the ids are joined with "," and nothing more. */
  lemma JoinIdsAllConverted(nodes: seq<GameNode>, ids: seq<string>)
    requires |ids| == |nodes|
    requires forall i :: 0 <= i < |nodes| ==> ConvertGameNodeToJson(nodes[i]) == Ok(Some(ids[i]))
    ensures JoinIdsSpec(nodes) == Ok(Join(ids, ","))
  {
    JoinResultsAllIds(Converted(nodes), ids);
  }

  lemma {:induction false} JoinResultsAllIds(rs: seq<Result<Option<string>>>, ids: seq<string>)
    requires |ids| == |rs|
    requires forall i :: 0 <= i < |rs| ==> rs[i] == Ok(Some(ids[i]))
    ensures JoinResults(rs) == Ok(Join(ids, ","))
    decreases |rs|
  {
    if rs != [] {
      assert forall i :: 0 <= i < |rs| - 1 ==> rs[1..][i] == rs[i + 1] && ids[1..][i] == ids[i + 1];
      JoinResultsAllIds(rs[1..], ids[1..]);
      assert rs[0] == Ok(Some(ids[0]));
      if |rs| == 1 {
        assert ids[0] + "" + "" == ids[0];
      }
    }
  }

  /** The delimiter is decided by whether more nodes follow, not whether more ids do:
      when every node after an id-yielding one yields none, the text ends with ",". */
  lemma JoinIdsTrailingComma(nodes: seq<GameNode>, k: nat)
    requires k + 1 < |nodes|
    requires forall j :: 0 <= j < k ==> ConvertGameNodeToJson(nodes[j]).Ok?
    requires ConvertGameNodeToJson(nodes[k]).Ok? && ConvertGameNodeToJson(nodes[k]).value.Some?
    requires forall j :: k < j < |nodes| ==> ConvertGameNodeToJson(nodes[j]) == Ok(None)
    ensures JoinIdsSpec(nodes).Ok?
    ensures var s := JoinIdsSpec(nodes).value; |s| > 0 && s[|s| - 1] == ','
  {
    JoinResultsTrailingComma(Converted(nodes), k);
  }

  lemma {:induction false} JoinResultsTrailingComma(rs: seq<Result<Option<string>>>, k: nat)
    requires k + 1 < |rs|
    requires forall j :: 0 <= j < k ==> rs[j].Ok?
    requires rs[k].Ok? && rs[k].value.Some?
    requires forall j :: k < j < |rs| ==> rs[j] == Ok(None)
    ensures JoinResults(rs).Ok?
    ensures var s := JoinResults(rs).value; |s| > 0 && s[|s| - 1] == ','
    decreases |rs|
  {
    assert forall j :: 0 <= j < |rs| - 1 ==> rs[1..][j] == rs[j + 1];
    if k == 0 {
      JoinResultsNoIds(rs[1..]);
      assert JoinResults(rs).value == rs[0].value.value + "," + "";
    } else {
      JoinResultsTrailingComma(rs[1..], k - 1);
    }
  }

  /** Nodes that yield no id give the empty text. */
  lemma JoinIdsNoneYield(nodes: seq<GameNode>)
    requires forall j :: 0 <= j < |nodes| ==> ConvertGameNodeToJson(nodes[j]) == Ok(None)
    ensures JoinIdsSpec(nodes) == Ok("")
  {
    JoinResultsNoIds(Converted(nodes));
  }

  lemma {:induction false} JoinResultsNoIds(rs: seq<Result<Option<string>>>)
    requires forall j :: 0 <= j < |rs| ==> rs[j] == Ok(None)
    ensures JoinResults(rs) == Ok("")
    decreases |rs|
  {
    if rs != [] {
      assert forall j :: 0 <= j < |rs| - 1 ==> rs[1..][j] == rs[j + 1];
      JoinResultsNoIds(rs[1..]);
    }
  }

  // ---------------------------------------------------------------------------
  // retrieveResults

  /** `Set.add` on the HashSet of results: a ready result equal to one already present
      is not added again; a pending result holds a fresh future, so it is always new. */
  function AddResult(results: seq<Produced>, p: Produced): seq<Produced> {
    if p.ReadyGame? && p in results then results else results + [p]
  }

  /** The result set built from the items, each converted by `convert`. */
  function CollectSet(items: seq<SteamItem>, convert: SteamItem -> Option<Produced>): seq<Produced>
  {
    if items == [] then []
    else
      var acc := CollectSet(items[..|items| - 1], convert);
      match convert(items[|items| - 1])
      case None => acc
      case Some(p) => AddResult(acc, p)
  }

  lemma {:induction false} CollectSetMembers(items: seq<SteamItem>, convert: SteamItem -> Option<Produced>, p: Produced)
    ensures p in CollectSet(items, convert) <==> exists i :: 0 <= i < |items| && convert(items[i]) == Some(p)
    decreases |items|
  {
    if items != [] {
      var init := items[..|items| - 1];
      CollectSetMembers(init, convert, p);
      assert forall i :: 0 <= i < |init| ==> init[i] == items[i];
    }
  }

  /** The result set built from the converted items. */
  function ResultSet(items: seq<SteamItem>, includeDLCs: bool, allowMature: bool, formatPrice: int -> string): seq<Produced>
  {
    CollectSet(items, item => ConvertItem(item, includeDLCs, allowMature, formatPrice))
  }

  /** Every element of the result set is the conversion of some item, and every item
      that converts is represented in it. */
  lemma ResultSetMembers(items: seq<SteamItem>, includeDLCs: bool, allowMature: bool, formatPrice: int -> string, p: Produced)
    ensures p in ResultSet(items, includeDLCs, allowMature, formatPrice) <==>
              exists i :: 0 <= i < |items| && ConvertItem(items[i], includeDLCs, allowMature, formatPrice) == Some(p)
  {
    CollectSetMembers(items, item => ConvertItem(item, includeDLCs, allowMature, formatPrice), p);
  }

  /** What `retrieveResults` returns. `freeGames` is the free game list request and
      `getItems` the GetItems request for an id list. A request that throws IOException
      becomes "Unable to retrieve games from Steam"; an empty free game list becomes
      "Unable to retrieve games lists from Steam"; an empty GetItems answer is no results. */
  function RetrieveResultsSpec(freeGames: Response<seq<GameNode>>, getItems: string -> Response<seq<SteamItem>>,
                               includeDLCs: bool, allowMature: bool, formatPrice: int -> string): Result<seq<Produced>>
  {
    match freeGames
    case Err(_) => Err(RequestFailed)
    case Ok(None) => Err("Unable to retrieve games lists from Steam")
    case Ok(Some(gameList)) =>
      match JoinIdsSpec(gameList)
      case Err(e) => Err(e)
      case Ok(jsonIdList) =>
        match getItems(jsonIdList)
        case Err(_) => Err(RequestFailed)
        case Ok(None) => Ok([])
        case Ok(Some(items)) => Ok(ResultSet(items, includeDLCs, allowMature, formatPrice))
  }

  /** The message of the GameRetrievalException that wraps a failed Steam request. */
  const RequestFailed: string := "Unable to retrieve games from Steam"

  /** `retrieveResults` fails exactly when a request throws, the free game list is
      empty, or an id cannot be cut out of a listing URL; otherwise it returns every
      item that converts, and only those. */
  lemma RetrieveResultsOutcome(freeGames: Response<seq<GameNode>>, getItems: string -> Response<seq<SteamItem>>,
                               includeDLCs: bool, allowMature: bool, formatPrice: int -> string)
    ensures var r := RetrieveResultsSpec(freeGames, getItems, includeDLCs, allowMature, formatPrice);
            r.Err? <==> freeGames.Err? || freeGames.value.None?
                        || (freeGames.value.Some?
                            && (JoinIdsSpec(freeGames.value.value).Err?
                                || getItems(JoinIdsSpec(freeGames.value.value).value).Err?))
    ensures freeGames.Err? ==> RetrieveResultsSpec(freeGames, getItems, includeDLCs, allowMature, formatPrice) == Err(RequestFailed)
    ensures freeGames.Ok? && freeGames.value.Some? && JoinIdsSpec(freeGames.value.value).Ok?
            && getItems(JoinIdsSpec(freeGames.value.value).value).Err?
            ==> RetrieveResultsSpec(freeGames, getItems, includeDLCs, allowMature, formatPrice) == Err(RequestFailed)
    ensures forall p :: (RetrieveResultsSpec(freeGames, getItems, includeDLCs, allowMature, formatPrice).Ok?
                         && p in RetrieveResultsSpec(freeGames, getItems, includeDLCs, allowMature, formatPrice).value)
                        ==> (freeGames.Ok? && freeGames.value.Some? && JoinIdsSpec(freeGames.value.value).Ok?
                             && var items := getItems(JoinIdsSpec(freeGames.value.value).value);
                                items.Ok? && items.value.Some?
                                && exists i :: 0 <= i < |items.value.value|
                                               && ConvertItem(items.value.value[i], includeDLCs, allowMature, formatPrice) == Some(p))
  {
    var r := RetrieveResultsSpec(freeGames, getItems, includeDLCs, allowMature, formatPrice);
    forall p | r.Ok? && p in r.value
      ensures freeGames.Ok? && freeGames.value.Some? && JoinIdsSpec(freeGames.value.value).Ok?
              && var items := getItems(JoinIdsSpec(freeGames.value.value).value);
                 items.Ok? && items.value.Some?
                 && exists i :: 0 <= i < |items.value.value|
                                && ConvertItem(items.value.value[i], includeDLCs, allowMature, formatPrice) == Some(p)
    {
      var items := getItems(JoinIdsSpec(freeGames.value.value).value);
      ResultSetMembers(items.value.value, includeDLCs, allowMature, formatPrice, p);
    }
  }

  /** `retrieveResults`. */
  method RetrieveResults(freeGames: Response<seq<GameNode>>, getItems: string -> Response<seq<SteamItem>>,
                         includeDLCs: bool, allowMature: bool, formatPrice: int -> string)
    returns (r: Result<seq<Produced>>)
    ensures r == RetrieveResultsSpec(freeGames, getItems, includeDLCs, allowMature, formatPrice)
  {
    if freeGames.Err? {
      return Err(RequestFailed);
    }
    if freeGames.value.None? {
      return Err("Unable to retrieve games lists from Steam");
    }
    var gameList := freeGames.value.value;
    var jsonIdList := JoinIds(gameList);
    if jsonIdList.Err? {
      return Err(jsonIdList.reason);
    }
    var itemListNodeOptional := getItems(jsonIdList.value);
    if itemListNodeOptional.Err? {
      return Err(RequestFailed);
    }
    if itemListNodeOptional.value.None? {
      return Ok([]);
    }
    var itemListNode := itemListNodeOptional.value.value;
    var scraperResultSet: seq<Produced> := [];
    var i := 0;
    while i < |itemListNode|
      invariant 0 <= i <= |itemListNode|
      invariant scraperResultSet == ResultSet(itemListNode[..i], includeDLCs, allowMature, formatPrice)
    {
      assert itemListNode[..i + 1][..i] == itemListNode[..i];
      var scraperResult := ConvertItem(itemListNode[i], includeDLCs, allowMature, formatPrice);
      if scraperResult.Some? {
        scraperResultSet := AddResult(scraperResultSet, scraperResult.value);
      }
      i := i + 1;
    }
    assert itemListNode[..i] == itemListNode;
    return Ok(scraperResultSet);
  }
}
