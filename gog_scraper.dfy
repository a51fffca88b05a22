/** The newer GOGScraper (io.github tree). It merges the home page's giveaway products
    with the discounted catalog; every product becomes a game still to be completed by
    the GOG web scraper. The HashMap of giveaway products is an association list keyed
    by product id, iterated in insertion order; the result HashSet is a list, since
    pending results hold distinct futures and are never equal. */
module GogScraper {
  import opened Common
  import opened Strings
  import opened Domain

  /** `GOG_GAME_URL_FORMAT` with the language and the slug filled in. */
  function GogGameUrl(language: string, slug: string): string {
    "https://www.gog.com/" + language + "/game/" + slug
  }

  // ---------------------------------------------------------------------------
  // JSON shapes

  /** A home page section: `sectionType` and `sectionId`. */
  datatype Section = Section(sectionType: string, sectionId: string)

  /** A catalog product or a giveaway section's `product`. `screenshots` holds each
      element's `asText()`. */
  datatype Product = Product(
    id: string,
    productType: string,
    slug: string,
    title: string,
    coverHorizontal: Option<string>,
    coverVertical: Option<string>,
    screenshots: Option<seq<string>>)

  // ---------------------------------------------------------------------------
  // Screenshots (the same code in both GOG scrapers)

  /** Each screenshot with "_{formatter}" removed, blanks dropped, in order. */
  function ScreenshotUrls(shots: seq<string>): (urls: seq<string>)
    ensures |urls| <= |shots|
    ensures forall u :: u in urls ==> !IsBlank(u)
  {
    if shots == [] then []
    else
      var url := Replace(shots[|shots| - 1], "_{formatter}", "");
      ScreenshotUrls(shots[..|shots| - 1]) + (if IsBlank(url) then [] else [url])
  }

  /** A URL is listed exactly when it is a screenshot with the formatter removed and
      it is not blank. */
  lemma {:induction false} ScreenshotUrlsMembers(shots: seq<string>, u: string)
    ensures u in ScreenshotUrls(shots) <==>
              exists i :: 0 <= i < |shots| && u == Replace(shots[i], "_{formatter}", "") && !IsBlank(u)
    decreases |shots|
  {
    if shots != [] {
      var init := shots[..|shots| - 1];
      ScreenshotUrlsMembers(init, u);
      assert forall i :: 0 <= i < |init| ==> init[i] == shots[i];
    }
  }

  /** What `getScreenshots` returns: nothing without a `screenshots` node. */
  function Screenshots(node: Option<seq<string>>): seq<string> {
    match node case None => [] case Some(shots) => ScreenshotUrls(shots)
  }

  /** `getScreenshots`. */
  method GetScreenshots(node: Option<seq<string>>) returns (screenshotList: seq<string>)
    ensures screenshotList == Screenshots(node)
  {
    if node.None? {
      return [];
    }
    var screenshotListNode := node.value;
    screenshotList := [];
    var i := 0;
    while i < |screenshotListNode|
      invariant 0 <= i <= |screenshotListNode|
      invariant screenshotList == ScreenshotUrls(screenshotListNode[..i])
    {
      assert screenshotListNode[..i + 1][..i] == screenshotListNode[..i];
      var url := Replace(screenshotListNode[i], "_{formatter}", "");
      if !IsBlank(url) {
        screenshotList := screenshotList + [url];
      }
      i := i + 1;
    }
    assert screenshotListNode[..i] == screenshotListNode;
  }

  // ---------------------------------------------------------------------------
  // Product conversion

  /** The lowercased product type is "dlc" or "extra". */
  predicate IsDLCType(productType: string) {
    ToLower(productType) == "dlc" || ToLower(productType) == "extra"
  }

  /** The covers that are present, keyed by their field names. */
  function Covers(p: Product): (m: map<string, string>)
    ensures "coverHorizontal" in m <==> p.coverHorizontal.Some?
    ensures "coverVertical" in m <==> p.coverVertical.Some?
    ensures p.coverHorizontal.Some? ==> m["coverHorizontal"] == p.coverHorizontal.value
    ensures p.coverVertical.Some? ==> m["coverVertical"] == p.coverVertical.value
    ensures forall k :: k in m ==> k == "coverHorizontal" || k == "coverVertical"
  {
    var m: map<string, string> := map[];
    var m := if p.coverHorizontal.Some? then m["coverHorizontal" := p.coverHorizontal.value] else m;
    if p.coverVertical.Some? then m["coverVertical" := p.coverVertical.value] else m
  }

  /** `getResultFromJson`: None (Java null) for a DLC while DLCs are excluded; otherwise
      a game, without price or description, handed to the web scraper. */
  function ResultFromJson(p: Product, includeDLCs: bool, language: string): (r: Option<Produced>)
    ensures r.None? <==> !includeDLCs && IsDLCType(p.productType)
    ensures r.Some? ==> r.value.ScrapeLater?
    ensures r.Some? ==>
              var g := r.value.game;
              g.title == Some(p.title) && g.url == Some(GogGameUrl(language, p.slug))
              && g.isDLC == IsDLCType(p.productType) && g.platform == Gog
              && g.storeMedia == Covers(p) && g.media == Screenshots(p.screenshots)
              && g.description == None && g.originalPrice == "N/A" && g.expirationEpoch == NoExpirationEpoch
  {
    var isDLC := IsDLCType(p.productType);
    if !includeDLCs && isDLC then None
    else
      Some(ScrapeLater(Builder().(title := Some(p.title), url := Some(GogGameUrl(language, p.slug)), isDLC := isDLC,
                                  storeMedia := Covers(p), media := Screenshots(p.screenshots), platform := Gog)))
  }

  // ---------------------------------------------------------------------------
  // Giveaway products

  /** The ids of the giveaway sections, in section order. */
  function GiveawaySectionIds(sections: seq<Section>): (ids: seq<string>)
    ensures |ids| <= |sections|
  {
    if sections == [] then []
    else
      var last := sections[|sections| - 1];
      GiveawaySectionIds(sections[..|sections| - 1])
      + (if EqualsIgnoreCase(last.sectionType, "GIVEAWAY_SECTION") then [last.sectionId] else [])
  }

  /** An id is listed exactly when a giveaway section has it. */
  lemma {:induction false} GiveawaySectionIdsMembers(sections: seq<Section>, id: string)
    ensures id in GiveawaySectionIds(sections) <==>
              exists i :: 0 <= i < |sections| && sections[i].sectionId == id
                          && EqualsIgnoreCase(sections[i].sectionType, "GIVEAWAY_SECTION")
    decreases |sections|
  {
    if sections != [] {
      var init := sections[..|sections| - 1];
      GiveawaySectionIdsMembers(init, id);
      assert forall i :: 0 <= i < |init| ==> init[i] == sections[i];
    }
  }

  /** The product ids of an association list. */
  function Keys(entries: seq<Product>): set<string> {
    set i | 0 <= i < |entries| :: entries[i].id
  }

  /** No two entries share an id. */
  predicate DistinctIds(entries: seq<Product>) {
    forall i, j :: 0 <= i < j < |entries| ==> entries[i].id != entries[j].id
  }

  /** `HashMap.put(product.id, product)`: replaces the entry with that id, or appends. */
  function Put(entries: seq<Product>, p: Product): (r: seq<Product>)
    requires DistinctIds(entries)
    ensures DistinctIds(r)
    ensures Keys(r) == Keys(entries) + {p.id}
    ensures p in r
    ensures forall q :: q in r ==> q == p || (q in entries && q.id != p.id)
  {
    if p.id in Keys(entries) then
      var i :| 0 <= i < |entries| && entries[i].id == p.id;
      PutReplaces(entries, p, i);
      entries[i := p]
    else
      PutAppends(entries, p);
      entries + [p]
  }

  lemma PutReplaces(entries: seq<Product>, p: Product, i: int)
    requires DistinctIds(entries) && 0 <= i < |entries| && entries[i].id == p.id
    ensures var r := entries[i := p];
            DistinctIds(r) && Keys(r) == Keys(entries) + {p.id} && p in r
            && forall q :: q in r ==> q == p || (q in entries && q.id != p.id)
  {
    var r := entries[i := p];
    assert forall k :: k in Keys(r) ==> k in Keys(entries) + {p.id} by {
      forall k | k in Keys(r) ensures k in Keys(entries) + {p.id} {
        var j :| 0 <= j < |r| && r[j].id == k;
        if j != i { assert entries[j].id == k; }
      }
    }
    assert forall k :: k in Keys(entries) + {p.id} ==> k in Keys(r) by {
      forall k | k in Keys(entries) + {p.id} ensures k in Keys(r) {
        if k == p.id { assert r[i].id == k; }
        else {
          var j :| 0 <= j < |entries| && entries[j].id == k;
          assert r[j].id == k;
        }
      }
    }
    assert r[i] == p;
  }

  lemma PutAppends(entries: seq<Product>, p: Product)
    requires DistinctIds(entries) && p.id !in Keys(entries)
    ensures var r := entries + [p];
            DistinctIds(r) && Keys(r) == Keys(entries) + {p.id} && p in r
            && forall q :: q in r ==> q == p || (q in entries && q.id != p.id)
  {
    var r := entries + [p];
    assert r[|entries|] == p;
    assert forall k :: k in Keys(r) ==> k in Keys(entries) + {p.id} by {
      forall k | k in Keys(r) ensures k in Keys(entries) + {p.id} {
        var j :| 0 <= j < |r| && r[j].id == k;
        if j < |entries| { assert entries[j].id == k; }
      }
    }
    assert forall k :: k in Keys(entries) + {p.id} ==> k in Keys(r) by {
      forall k | k in Keys(entries) + {p.id} ensures k in Keys(r) {
        if k == p.id { assert r[|entries|].id == k; }
        else {
          var j :| 0 <= j < |entries| && entries[j].id == k;
          assert r[j].id == k;
        }
      }
    }
    forall q | q in r ensures q == p || (q in entries && q.id != p.id) {
      if q != p {
        var j :| 0 <= j < |r| && r[j] == q;
        assert j < |entries| && entries[j] == q;
      }
    }
  }

  /** The giveaway map built from the section ids: each section's product, when the
      section request returned one, put under its id. (A section request that throws
      ends `getGiveawayNodes` altogether; see GiveawayNodes.) */
  function GiveawayEntries(ids: seq<string>, fetchProduct: string -> Response<Product>): (entries: seq<Product>)
    ensures DistinctIds(entries)
  {
    if ids == [] then []
    else
      var entries := GiveawayEntries(ids[..|ids| - 1], fetchProduct);
      match fetchProduct(ids[|ids| - 1])
      case Ok(Some(product)) => Put(entries, product)
      case _ => entries
  }

  /** Every entry is a product some giveaway section returned, and the map is keyed by
      exactly the ids of those products. */
  lemma {:induction false} GiveawayEntriesFetched(ids: seq<string>, fetchProduct: string -> Response<Product>)
    ensures forall q :: q in GiveawayEntries(ids, fetchProduct) ==>
              exists i :: 0 <= i < |ids| && fetchProduct(ids[i]) == Ok(Some(q))
    ensures forall k :: k in Keys(GiveawayEntries(ids, fetchProduct)) <==>
              exists i :: 0 <= i < |ids| && fetchProduct(ids[i]).Ok? && fetchProduct(ids[i]).value.Some?
                          && fetchProduct(ids[i]).value.value.id == k
    decreases |ids|
  {
    if ids != [] {
      var init := ids[..|ids| - 1];
      GiveawayEntriesFetched(init, fetchProduct);
      assert forall i :: 0 <= i < |init| ==> init[i] == ids[i];
      assert ids[|ids| - 1] == ids[|ids| - 1];
    }
  }

  /** The message of the GameRetrievalException that wraps a failed GOG request. */
  const RequestFailed: string := "Unable to retrieve games from GOG"

  /** Some section request among `ids` throws. */
  predicate SectionRequestFails(ids: seq<string>, fetchProduct: string -> Response<Product>) {
    exists i :: 0 <= i < |ids| && fetchProduct(ids[i]).Err?
  }

  /** What `getGiveawayNodes` returns or throws. `homePageSections` is the home page
      request; `fetchProduct` gives a section's `product` (the request, then the
      `product` field of its properties). */
  function GiveawayNodes(homePageSections: Response<seq<Section>>, fetchProduct: string -> Response<Product>): Result<seq<Product>> {
    match homePageSections
    case Err(_) => Err(RequestFailed)
    case Ok(None) => Ok([])
    case Ok(Some(sections)) =>
      var ids := GiveawaySectionIds(sections);
      if SectionRequestFails(ids, fetchProduct) then Err(RequestFailed)
      else Ok(GiveawayEntries(ids, fetchProduct))
  }

  lemma GiveawaySectionIdsStep(sections: seq<Section>, i: nat)
    requires i < |sections|
    ensures GiveawaySectionIds(sections[..i + 1])
            == GiveawaySectionIds(sections[..i])
               + if EqualsIgnoreCase(sections[i].sectionType, "GIVEAWAY_SECTION") then [sections[i].sectionId] else []
  {
    assert sections[..i + 1][..i] == sections[..i];
  }

  lemma GiveawayEntriesStep(ids: seq<string>, j: nat, fetchProduct: string -> Response<Product>)
    requires j < |ids|
    ensures GiveawayEntries(ids[..j + 1], fetchProduct)
            == match fetchProduct(ids[j])
               case Ok(Some(product)) => Put(GiveawayEntries(ids[..j], fetchProduct), product)
               case _ => GiveawayEntries(ids[..j], fetchProduct)
  {
    assert ids[..j + 1][..j] == ids[..j];
  }

  /** `getGiveawayNodes`: collects the giveaway section ids, then fetches each section. */
  method GetGiveawayNodes(homePageSections: Response<seq<Section>>, fetchProduct: string -> Response<Product>)
    returns (r: Result<seq<Product>>)
    ensures r == GiveawayNodes(homePageSections, fetchProduct)
  {
    if homePageSections.Err? {
      return Err(RequestFailed);
    }
    if homePageSections.value.None? {
      return Ok([]);
    }
    var sections := homePageSections.value.value;
    var giveawaySectionIds: seq<string> := [];
    var i := 0;
    while i < |sections|
      invariant 0 <= i <= |sections|
      invariant giveawaySectionIds == GiveawaySectionIds(sections[..i])
    {
      GiveawaySectionIdsStep(sections, i);
      if EqualsIgnoreCase(sections[i].sectionType, "GIVEAWAY_SECTION") {
        giveawaySectionIds := giveawaySectionIds + [sections[i].sectionId];
      }
      i := i + 1;
    }
    assert sections[..i] == sections;
    var giveawaySectionMap: seq<Product> := [];
    var j := 0;
    while j < |giveawaySectionIds|
      invariant 0 <= j <= |giveawaySectionIds|
      invariant giveawaySectionMap == GiveawayEntries(giveawaySectionIds[..j], fetchProduct)
      invariant forall k :: 0 <= k < j ==> fetchProduct(giveawaySectionIds[k]).Ok?
    {
      GiveawayEntriesStep(giveawaySectionIds, j, fetchProduct);
      var productionOptional := fetchProduct(giveawaySectionIds[j]);
      if productionOptional.Err? {
        return Err(RequestFailed);
      }
      if productionOptional.value.Some? {
        giveawaySectionMap := Put(giveawaySectionMap, productionOptional.value.value);
      }
      j := j + 1;
    }
    assert giveawaySectionIds[..j] == giveawaySectionIds;
    return Ok(giveawaySectionMap);
  }

  // ---------------------------------------------------------------------------
  // retrieveResults

  /** The results of the giveaway products, in map order. */
  function GiveawayResults(entries: seq<Product>, includeDLCs: bool, language: string): seq<Produced> {
    if entries == [] then []
    else
      var acc := GiveawayResults(entries[..|entries| - 1], includeDLCs, language);
      match ResultFromJson(entries[|entries| - 1], includeDLCs, language)
      case None => acc
      case Some(p) => acc + [p]
  }

  /** The results of the catalog products whose id is not a giveaway key. */
  function CatalogResults(gameList: seq<Product>, giveawayKeys: set<string>, includeDLCs: bool, language: string): seq<Produced> {
    if gameList == [] then []
    else
      CatalogResults(gameList[..|gameList| - 1], giveawayKeys, includeDLCs, language)
      + CatalogEntry(gameList[|gameList| - 1], giveawayKeys, includeDLCs, language)
  }

  /** What one catalog product adds: nothing for a giveaway key or an excluded DLC. */
  function CatalogEntry(gameNode: Product, giveawayKeys: set<string>, includeDLCs: bool, language: string): seq<Produced> {
    if gameNode.id in giveawayKeys then []
    else match ResultFromJson(gameNode, includeDLCs, language)
      case None => []
      case Some(p) => [p]
  }

  lemma CatalogResultsStep(gameList: seq<Product>, j: nat, giveawayKeys: set<string>, includeDLCs: bool, language: string)
    requires j < |gameList|
    ensures CatalogResults(gameList[..j + 1], giveawayKeys, includeDLCs, language)
            == CatalogResults(gameList[..j], giveawayKeys, includeDLCs, language)
               + CatalogEntry(gameList[j], giveawayKeys, includeDLCs, language)
  {
    assert gameList[..j + 1][..j] == gameList[..j];
  }

  /** The results `retrieveResults` collects once its requests have answered: nothing
      when both sources are empty; else the giveaway results, then (when the catalog
      was returned) the catalog results. */
  function ScrapedResults(gameList: Option<seq<Product>>, giveaways: seq<Product>, includeDLCs: bool, language: string): seq<Produced> {
    if gameList.None? && giveaways == [] then []
    else
      GiveawayResults(giveaways, includeDLCs, language)
      + (if gameList.Some? then CatalogResults(gameList.value, Keys(giveaways), includeDLCs, language) else [])
  }

  lemma {:induction false} GiveawayResultsMembers(entries: seq<Product>, includeDLCs: bool, language: string, p: Produced)
    ensures p in GiveawayResults(entries, includeDLCs, language) <==>
              exists i :: 0 <= i < |entries| && ResultFromJson(entries[i], includeDLCs, language) == Some(p)
    decreases |entries|
  {
    if entries != [] {
      var init := entries[..|entries| - 1];
      GiveawayResultsMembers(init, includeDLCs, language, p);
      assert forall i :: 0 <= i < |init| ==> init[i] == entries[i];
    }
  }

  lemma {:induction false} CatalogResultsMembers(gameList: seq<Product>, giveawayKeys: set<string>, includeDLCs: bool, language: string, p: Produced)
    ensures p in CatalogResults(gameList, giveawayKeys, includeDLCs, language) <==>
              exists i :: 0 <= i < |gameList| && gameList[i].id !in giveawayKeys
                          && ResultFromJson(gameList[i], includeDLCs, language) == Some(p)
    decreases |gameList|
  {
    if gameList != [] {
      var init := gameList[..|gameList| - 1];
      CatalogResultsMembers(init, giveawayKeys, includeDLCs, language, p);
      assert forall i :: 0 <= i < |init| ==> init[i] == gameList[i];
    }
  }

  /** The giveaway version wins: a result comes from a giveaway product, or from a
      catalog product whose id no giveaway product has; and every result is pending. */
  lemma GiveawayWins(gameList: Option<seq<Product>>, giveaways: seq<Product>, includeDLCs: bool, language: string, p: Produced)
    ensures p in ScrapedResults(gameList, giveaways, includeDLCs, language) <==>
              (exists i :: 0 <= i < |giveaways| && ResultFromJson(giveaways[i], includeDLCs, language) == Some(p))
              || (gameList.Some? && exists i :: 0 <= i < |gameList.value| && gameList.value[i].id !in Keys(giveaways)
                                                 && ResultFromJson(gameList.value[i], includeDLCs, language) == Some(p))
    ensures p in ScrapedResults(gameList, giveaways, includeDLCs, language) ==> p.ScrapeLater?
  {
    GiveawayResultsMembers(giveaways, includeDLCs, language, p);
    if gameList.Some? {
      CatalogResultsMembers(gameList.value, Keys(giveaways), includeDLCs, language, p);
    }
  }

  /** The for loop of `retrieveResults` over the catalog: a product whose id is a
      giveaway key is skipped, any other product's result is added. */
  method AddCatalogResults(catalog: seq<Product>, giveawayNodes: seq<Product>, includeDLCs: bool, language: string,
                           start: seq<Produced>)
    returns (scraperResultSet: seq<Produced>)
    ensures scraperResultSet == start + CatalogResults(catalog, Keys(giveawayNodes), includeDLCs, language)
  {
    var giveawayKeys := Keys(giveawayNodes);
    scraperResultSet := start;
    var j := 0;
    while j < |catalog|
      invariant 0 <= j <= |catalog|
      invariant scraperResultSet == start + CatalogResults(catalog[..j], giveawayKeys, includeDLCs, language)
    {
      CatalogResultsStep(catalog, j, giveawayKeys, includeDLCs, language);
      ghost var added := CatalogResults(catalog[..j], giveawayKeys, includeDLCs, language);
      var gameNode := catalog[j];
      if gameNode.id in giveawayKeys {
        assert added + [] == added;
        j := j + 1;
        continue;
      }
      var scraperResult := ResultFromJson(gameNode, includeDLCs, language);
      if scraperResult.Some? {
        AppendAssoc(start, added, [scraperResult.value]);
        scraperResultSet := scraperResultSet + [scraperResult.value];
      } else {
        assert added + [] == added;
      }
      j := j + 1;
    }
    assert catalog[..j] == catalog;
  }

  /** What `retrieveResults` returns or throws: the catalog request is made first, then
      the giveaway requests; any of them throwing IOException becomes "Unable to
      retrieve games from GOG". */
  function RetrieveResultsSpec(gameList: Response<seq<Product>>, homePageSections: Response<seq<Section>>,
                               fetchProduct: string -> Response<Product>, includeDLCs: bool, language: string): Result<seq<Produced>> {
    match gameList
    case Err(_) => Err(RequestFailed)
    case Ok(catalog) =>
      match GiveawayNodes(homePageSections, fetchProduct)
      case Err(e) => Err(e)
      case Ok(giveaways) => Ok(ScrapedResults(catalog, giveaways, includeDLCs, language))
  }

  /** `retrieveResults` fails exactly when the catalog request, the home page request
      or one of the giveaway section requests throws, and then with the wrapped
      message. */
  lemma RetrieveResultsFails(gameList: Response<seq<Product>>, homePageSections: Response<seq<Section>>,
                             fetchProduct: string -> Response<Product>, includeDLCs: bool, language: string)
    ensures RetrieveResultsSpec(gameList, homePageSections, fetchProduct, includeDLCs, language).Err?
            <==> gameList.Err? || homePageSections.Err?
                 || (homePageSections.value.Some?
                     && SectionRequestFails(GiveawaySectionIds(homePageSections.value.value), fetchProduct))
    ensures RetrieveResultsSpec(gameList, homePageSections, fetchProduct, includeDLCs, language).Err?
            ==> RetrieveResultsSpec(gameList, homePageSections, fetchProduct, includeDLCs, language) == Err(RequestFailed)
  {
  }

  /** `retrieveResults`. */
  method RetrieveResults(gameList: Response<seq<Product>>, homePageSections: Response<seq<Section>>,
                         fetchProduct: string -> Response<Product>, includeDLCs: bool, language: string)
    returns (r: Result<seq<Produced>>)
    ensures r == RetrieveResultsSpec(gameList, homePageSections, fetchProduct, includeDLCs, language)
  {
    if gameList.Err? {
      return Err(RequestFailed);
    }
    var gameListOptional := gameList.value;
    var giveaways := GetGiveawayNodes(homePageSections, fetchProduct);
    if giveaways.Err? {
      return Err(giveaways.reason);
    }
    var giveawayNodes := giveaways.value;
    if gameListOptional.None? && giveawayNodes == [] {
      return Ok([]);
    }
    // The stream over the giveaway values: map, drop nulls, add.
    var scraperResultSet := GiveawayResults(giveawayNodes, includeDLCs, language);
    if gameListOptional.None? {
      assert scraperResultSet + [] == scraperResultSet;
      return Ok(scraperResultSet);
    }
    scraperResultSet := AddCatalogResults(gameListOptional.value, giveawayNodes, includeDLCs, language, scraperResultSet);
    return Ok(scraperResultSet);
  }
}
