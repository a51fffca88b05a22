/** The older GOGScraper (me.theforbiddenai tree). It requests the discounted catalog
    and starts building a game for every product, but discards those futures and
    always returns an empty list. The product card request, and the Jsoup cleaning of
    the description it holds, are a `describe` parameter. */
module LegacyGogScraper {
  import opened Common
  import opened Strings
  import opened Domain
  import GogScraper

  /** A catalog product as the older scraper reads it. `priceBase` is `price.base` as
      text, None when either is missing; the covers and the store link are read
      unguarded. */
  datatype CatalogProduct = CatalogProduct(
    productType: string,
    priceBase: Option<string>,
    coverHorizontal: string,
    coverVertical: string,
    storeLink: string,
    title: string,
    screenshots: Option<seq<string>>)

  /** DLC iff `productType` equals "dlc" or "extra", ignoring case. */
  predicate IsGogDLC(productType: string) {
    EqualsIgnoreCase(productType, "dlc") || EqualsIgnoreCase(productType, "extra")
  }

  /** The newer tree's lowercase-and-compare test is the same test. */
  lemma DLCTestsAgree(productType: string)
    ensures IsGogDLC(productType) <==> GogScraper.IsDLCType(productType)
  {
    assert ToLower("dlc") == "dlc";
    assert ToLower("extra") == "extra";
  }

  /** The formatted original price: `price.base`, or "" when it is missing. */
  function OriginalPrice(p: CatalogProduct): (price: string)
    ensures p.priceBase.Some? ==> price == p.priceBase.value
    ensures p.priceBase.None? ==> price == ""
  {
    match p.priceBase case None => "" case Some(base) => base
  }

  /** The game `retrieveGameFromGOG` builds, given the cleaned description. */
  function CatalogGame(p: CatalogProduct, description: string): (g: Game)
    ensures g.title == Some(p.title) && g.description == Some(description) && g.url == Some(p.storeLink)
    ensures g.isDLC == IsGogDLC(p.productType) && g.originalPrice == OriginalPrice(p) && g.platform == Gog
    ensures g.storeMedia == map["coverHorizontal" := p.coverHorizontal, "coverVertical" := p.coverVertical]
    ensures g.media == GogScraper.Screenshots(p.screenshots)
    ensures g.expirationEpoch == NoExpirationEpoch
  {
    Builder().(title := Some(p.title), description := Some(description), url := Some(p.storeLink),
               isDLC := IsGogDLC(p.productType), originalPrice := OriginalPrice(p),
               storeMedia := map["coverHorizontal" := p.coverHorizontal, "coverVertical" := p.coverVertical],
               media := GogScraper.Screenshots(p.screenshots), platform := Gog)
  }

  /** The catalog's `productType` filter: "game,pack", with ",dlc,extras" only when
      DLCs are included. */
  function ProductTypes(includeDLCs: bool): (types: string)
    ensures "game,pack" <= types
    ensures includeDLCs <==> |types| > |"game,pack"|
    ensures includeDLCs ==> types[|"game,pack"|..] == ",dlc,extras"
  {
    var productTypes := "game,pack";
    if includeDLCs then productTypes + ",dlc,extras" else productTypes
  }

  /** The older `retrieveResults`: a game is built for every catalog product and then
      dropped; the result is always empty. `gameList` is None when the catalog request
      failed. */
  method RetrieveResults(gameList: Option<seq<CatalogProduct>>, describe: string -> string)
    returns (r: Result<seq<ScraperResult>>)
    ensures gameList.None? <==> r.Err?
    ensures gameList.Some? ==> r == Ok([])
  {
    if gameList.None? {
      return Err("Unable to retrieve games from GOG");
    }
    var gameListNode := gameList.value;
    var i := 0;
    while i < |gameListNode|
      invariant 0 <= i <= |gameListNode|
    {
      // The future `retrieveGameFromGOG` starts for this product, dropped unjoined.
      var discarded := CatalogGame(gameListNode[i], describe(gameListNode[i].storeLink));
      i := i + 1;
    }
    return Ok([]);
  }
}
