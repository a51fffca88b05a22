/** The EpicGamesScraper (me.theforbiddenai tree). It pages through the GraphQL store
    search, then adds the free-game promotions, converting every element whose discount
    price is 0 into a ready game. The JSON of one element is the `Element` datatype; a
    field read through `Optional`/`has` is an Option, one read unguarded is plain.
    Results are kept as a list: the older ScraperResult overrides `equals` but not
    `hashCode`, so its HashSet never merges two results. */
module EpicGamesScraper {
  import opened Common
  import opened Strings
  import opened Domain
  import opened Callbacks

  const EpicStoreUrl: string := "https://store.epicgames.com/"

  // ---------------------------------------------------------------------------
  // JSON shapes

  /** One offer: `discountSetting.discountPercentage` (None when either is missing)
      and `endDate` as text. */
  datatype Offer = Offer(discountPercentage: Option<int>, endDate: Option<string>)

  /** An element of `price.lineOffers` or `promotions.promotionalOffers`, with the array
      it holds under `appliedRules` or `promotionalOffers` respectively. */
  datatype OfferGroup = OfferGroup(offers: Option<seq<Offer>>)

  /** An element of `keyImages`. */
  datatype KeyImage = KeyImage(kind: string, url: string)

  /** One element of a search page or of the promotions list. `mappings` holds the
      `pageSlug` of every `catalogNs.mappings` entry; it is None when `catalogNs` or its
      `mappings` is missing. */
  datatype Element = Element(
    title: Option<string>,
    offerType: string,
    description: string,
    discountPrice: int,
    originalPrice: int,
    decimals: int,
    lineOffers: Option<seq<OfferGroup>>,
    promotionalOffers: Option<seq<OfferGroup>>,
    keyImages: Option<seq<KeyImage>>,
    urlSlug: Option<string>,
    productSlug: Option<string>,
    mappings: Option<seq<string>>)

  /** One `searchStore` response: its elements and `paging.total`/`paging.count`. */
  datatype Page = Page(elements: seq<Element>, total: int, count: int)

  /** Configuration, locale and environment: `now` is `Instant.now()` in epoch seconds,
      `parseInstant` is `Instant.parse(..).getEpochSecond()` (None when it throws) and
      `formatPrice` is `originalPrice(priceNoDecimal, decimalCount)`. */
  datatype Config = Config(
    includeDLCs: bool,
    language: string,
    country: string,
    now: int,
    parseInstant: string -> Option<int>,
    formatPrice: (int, int) -> string)

  // ---------------------------------------------------------------------------
  // Listing URL

  /** A listing is a DLC when its `offerType` is DLC or ADD_ON, ignoring case. */
  predicate IsEpicDLC(offerType: string) {
    EqualsIgnoreCase(offerType, "DLC") || EqualsIgnoreCase(offerType, "ADD_ON")
  }

  /** `getEpicGamesListingURL`: store, language, "-", country, "/p/", slug. */
  function ListingUrl(language: string, country: string, slug: string): string {
    EpicStoreUrl + language + "-" + country + "/p/" + slug
  }

  /** The offer page slug the URL search tries first: `urlSlug` for a DLC, else
      `productSlug`. */
  function OfferSlug(e: Element, isDLC: bool): Option<string> {
    if isDLC then e.urlSlug else e.productSlug
  }

  /** `getGameUrl`: a present, non-blank offer slug; else the first catalog mapping's
      page slug; else the store root. */
  function GameUrl(e: Element, isDLC: bool, language: string, country: string): (url: string)
    ensures OfferSlug(e, isDLC).Some? && !IsBlank(OfferSlug(e, isDLC).value) ==>
              url == ListingUrl(language, country, OfferSlug(e, isDLC).value)
    ensures (OfferSlug(e, isDLC).None? || IsBlank(OfferSlug(e, isDLC).value)) && e.mappings.Some? && e.mappings.value != [] ==>
              url == ListingUrl(language, country, e.mappings.value[0])
    ensures (OfferSlug(e, isDLC).None? || IsBlank(OfferSlug(e, isDLC).value)) && (e.mappings.None? || e.mappings.value == []) ==>
              url == EpicStoreUrl
  {
    var slug := OfferSlug(e, isDLC);
    if slug.Some? && !IsBlank(slug.value) then ListingUrl(language, country, slug.value)
    else if e.mappings.Some? && e.mappings.value != [] then ListingUrl(language, country, e.mappings.value[0])
    else EpicStoreUrl
  }

  /** Every URL is the store root or a locale listing page below it. */
  lemma GameUrlInStore(e: Element, isDLC: bool, language: string, country: string)
    ensures var url := GameUrl(e, isDLC, language, country);
            url == EpicStoreUrl || EpicStoreUrl + language + "-" + country + "/p/" <= url
  {
    var prefix := EpicStoreUrl + language + "-" + country + "/p/";
    forall slug: string ensures prefix <= ListingUrl(language, country, slug) {
      assert ListingUrl(language, country, slug) == prefix + slug;
    }
  }

  // ---------------------------------------------------------------------------
  // Offers and expiration

  /** The offers held by a list of offer groups, group by group; groups without the
      inner array are skipped. */
  function GroupOffers(groups: seq<OfferGroup>): seq<Offer> {
    if groups == [] then []
    else
      var last := groups[|groups| - 1];
      GroupOffers(groups[..|groups| - 1]) + (if last.offers.Some? then last.offers.value else [])
  }

  /** What `getAllOfferNodes` returns: the line offers' applied rules, then the
      promotional offers. */
  function AllOffers(e: Element): seq<Offer> {
    (if e.lineOffers.Some? then GroupOffers(e.lineOffers.value) else [])
    + (if e.promotionalOffers.Some? then GroupOffers(e.promotionalOffers.value) else [])
  }

  /** An offer is in the flattened list exactly when some group holds it. */
  lemma {:induction false} GroupOffersMembers(groups: seq<OfferGroup>, o: Offer)
    ensures o in GroupOffers(groups) <==> exists i :: 0 <= i < |groups| && groups[i].offers.Some? && o in groups[i].offers.value
    decreases |groups|
  {
    if groups != [] {
      var init := groups[..|groups| - 1];
      GroupOffersMembers(init, o);
      assert forall i :: 0 <= i < |init| ==> init[i] == groups[i];
    }
  }

  /** `addOffersToList`: the inner arrays' offers appended in order. */
  method AddOffersToList(groups: seq<OfferGroup>, offerList: ArrayList<Offer>)
    modifies offerList
    ensures offerList.items == old(offerList.items) + GroupOffers(groups)
  {
    var i := 0;
    while i < |groups|
      invariant 0 <= i <= |groups|
      invariant offerList.items == old(offerList.items) + GroupOffers(groups[..i])
    {
      assert groups[..i + 1][..i] == groups[..i];
      if groups[i].offers.Some? {
        var offers := groups[i].offers.value;
        var j := 0;
        while j < |offers|
          invariant 0 <= j <= |offers|
          invariant offerList.items == old(offerList.items) + GroupOffers(groups[..i]) + offers[..j]
        {
          assert offers[..j + 1] == offers[..j] + [offers[j]];
          offerList.Add(offers[j]);
          j := j + 1;
        }
        assert offers[..j] == offers;
      }
      i := i + 1;
    }
    assert groups[..i] == groups;
  }

  /** `getAllOfferNodes`. */
  method GetAllOfferNodes(e: Element) returns (offers: seq<Offer>)
    ensures offers == AllOffers(e)
  {
    var offerNodeList := new ArrayList<Offer>();
    if e.lineOffers.Some? {
      AddOffersToList(e.lineOffers.value, offerNodeList);
    }
    if e.promotionalOffers.Some? {
      AddOffersToList(e.promotionalOffers.value, offerNodeList);
    }
    offers := offerNodeList.items;
  }

  /** The text of the DateTimeParseException `Instant.parse` throws. It is a
      RuntimeException: `retrieveResults` does not catch it, so it leaves the scraper
      unwrapped. */
  const ParseFailed: string := "DateTimeParseException in Instant.parse"

  /** An offer's end epoch: -1 for a missing or blank `endDate`, else the parsed
      instant; None when `Instant.parse` rejects the text. */
  function EndEpoch(o: Offer, parseInstant: string -> Option<int>): Option<int> {
    var endDate := match o.endDate case None => "" case Some(t) => t;
    if IsBlank(endDate) then Some(NoExpirationEpoch) else parseInstant(endDate)
  }

  /** How one offer ends the search, if it does: a 100% discount (`discountPercentage`
      0) whose end date parses to a time after `now` answers with that epoch, one whose
      end date does not parse throws; any other offer lets the search go on (None). */
  function OfferOutcome(o: Offer, now: int, parseInstant: string -> Option<int>): Option<Result<int>> {
    if o.discountPercentage != Some(0) then None
    else match EndEpoch(o, parseInstant)
      case None => Some(Err(ParseFailed))
      case Some(endEpoch) => if endEpoch > now then Some(Ok(endEpoch)) else None
  }

  /** What `getOfferExpirationEpoch` returns for an offer list: the outcome of the
      first offer that ends the search, else the sentinel; so an answer is always the
      sentinel or a time after `now`. */
  function OfferExpiration(offers: seq<Offer>, now: int, parseInstant: string -> Option<int>): (epoch: Result<int>)
    ensures epoch.Ok? ==> epoch.value == NoExpirationEpoch || epoch.value > now
    ensures epoch.Err? ==> epoch.reason == ParseFailed
  {
    if offers == [] then Ok(NoExpirationEpoch)
    else match OfferOutcome(offers[0], now, parseInstant)
      case Some(outcome) => outcome
      case None => OfferExpiration(offers[1..], now, parseInstant)
  }

  /** The search is a first-match search: with no offer that ends it the result is the
      sentinel; otherwise the first such offer gives the answer, its end epoch or the
      parse exception. */
  lemma {:induction false} OfferExpirationFirstMatch(offers: seq<Offer>, now: int, parseInstant: string -> Option<int>)
    ensures (forall k :: 0 <= k < |offers| ==> OfferOutcome(offers[k], now, parseInstant).None?) ==>
              OfferExpiration(offers, now, parseInstant) == Ok(NoExpirationEpoch)
    ensures (exists k :: 0 <= k < |offers| && OfferOutcome(offers[k], now, parseInstant).Some?) ==>
              exists k :: 0 <= k < |offers| && OfferOutcome(offers[k], now, parseInstant).Some?
                          && (forall j :: 0 <= j < k ==> OfferOutcome(offers[j], now, parseInstant).None?)
                          && OfferExpiration(offers, now, parseInstant) == OfferOutcome(offers[k], now, parseInstant).value
    decreases |offers|
  {
    if offers != [] && OfferOutcome(offers[0], now, parseInstant).None? {
      var rest := offers[1..];
      OfferExpirationFirstMatch(rest, now, parseInstant);
      if forall k :: 0 <= k < |offers| ==> OfferOutcome(offers[k], now, parseInstant).None? {
        forall k | 0 <= k < |rest| ensures OfferOutcome(rest[k], now, parseInstant).None? {
          assert rest[k] == offers[k + 1];
        }
      }
      if exists k :: 0 <= k < |offers| && OfferOutcome(offers[k], now, parseInstant).Some? {
        var k :| 0 <= k < |offers| && OfferOutcome(offers[k], now, parseInstant).Some?;
        assert rest[k - 1] == offers[k];
        var k' :| 0 <= k' < |rest| && OfferOutcome(rest[k'], now, parseInstant).Some?
                  && (forall j :: 0 <= j < k' ==> OfferOutcome(rest[j], now, parseInstant).None?)
                  && OfferExpiration(rest, now, parseInstant) == OfferOutcome(rest[k'], now, parseInstant).value;
        assert offers[k' + 1] == rest[k'];
        forall j | 0 <= j < k' + 1 ensures OfferOutcome(offers[j], now, parseInstant).None? {
          if j > 0 {
            assert offers[j] == rest[j - 1];
          }
        }
      }
    }
  }

  lemma OfferExpirationStep(offers: seq<Offer>, i: nat, now: int, parseInstant: string -> Option<int>)
    requires i < |offers|
    ensures OfferExpiration(offers[i..], now, parseInstant)
            == match OfferOutcome(offers[i], now, parseInstant)
               case Some(outcome) => outcome
               case None => OfferExpiration(offers[i + 1..], now, parseInstant)
  {
    assert offers[i..][1..] == offers[i + 1..];
  }

  /** `getOfferExpirationEpoch`: collects the offers, then returns at the first
      qualifying one; `Instant.parse` throws on an end date it cannot read. */
  method GetOfferExpirationEpoch(e: Element, now: int, parseInstant: string -> Option<int>) returns (epoch: Result<int>)
    ensures epoch == OfferExpiration(AllOffers(e), now, parseInstant)
  {
    var offerNodeList := GetAllOfferNodes(e);
    var i := 0;
    while i < |offerNodeList|
      invariant 0 <= i <= |offerNodeList|
      invariant OfferExpiration(offerNodeList, now, parseInstant) == OfferExpiration(offerNodeList[i..], now, parseInstant)
    {
      OfferExpirationStep(offerNodeList, i, now, parseInstant);
      var offerNode := offerNodeList[i];
      if offerNode.discountPercentage.None? || offerNode.discountPercentage.value != 0 {
        i := i + 1;
        continue;
      }
      var endDate := if offerNode.endDate.Some? then offerNode.endDate.value else "";
      var endEpoch := if IsBlank(endDate) then NoExpirationEpoch else 0;
      if !IsBlank(endDate) {
        var parsed := parseInstant(endDate);
        if parsed.None? {
          return Err(ParseFailed);
        }
        endEpoch := parsed.value;
      }
      if endEpoch > now {
        return Ok(endEpoch);
      }
      i := i + 1;
    }
    return Ok(NoExpirationEpoch);
  }

  // ---------------------------------------------------------------------------
  // Media

  /** An in-game screenshot: type "featuredMedia", ignoring case. */
  predicate IsFeatured(img: KeyImage) {
    EqualsIgnoreCase(img.kind, "featuredMedia")
  }

  /** The featured media URLs, in order. */
  function FeaturedMedia(images: seq<KeyImage>): (media: seq<string>)
    ensures |media| <= |images|
  {
    if images == [] then []
    else
      var last := images[|images| - 1];
      FeaturedMedia(images[..|images| - 1]) + (if IsFeatured(last) then [last.url] else [])
  }

  /** The store images: every other image keyed by its type, later ones overwriting. */
  function StoreImages(images: seq<KeyImage>): map<string, string> {
    if images == [] then map[]
    else
      var last := images[|images| - 1];
      var m := StoreImages(images[..|images| - 1]);
      if IsFeatured(last) then m else m[last.kind := last.url]
  }

  /** A type is a store image key exactly when a non-featured image has it, and its URL
      is that of the last such image. */
  lemma {:induction false} StoreImagesLastWins(images: seq<KeyImage>, kind: string)
    ensures kind in StoreImages(images) <==> exists i :: 0 <= i < |images| && images[i].kind == kind && !IsFeatured(images[i])
    ensures kind in StoreImages(images) ==>
              exists i :: 0 <= i < |images| && images[i].kind == kind && !IsFeatured(images[i])
                          && StoreImages(images)[kind] == images[i].url
                          && forall j :: i < j < |images| && images[j].kind == kind ==> IsFeatured(images[j])
    decreases |images|
  {
    if images != [] {
      var init := images[..|images| - 1];
      StoreImagesLastWins(init, kind);
      assert forall i :: 0 <= i < |init| ==> init[i] == images[i];
    }
  }

  /** A URL is featured media exactly when a featured image has it. */
  lemma {:induction false} FeaturedMediaMembers(images: seq<KeyImage>, url: string)
    ensures url in FeaturedMedia(images) <==> exists i :: 0 <= i < |images| && IsFeatured(images[i]) && images[i].url == url
    decreases |images|
  {
    if images != [] {
      var init := images[..|images| - 1];
      FeaturedMediaMembers(init, url);
      assert forall i :: 0 <= i < |init| ==> init[i] == images[i];
    }
  }

  /** What `setGameMedia` does to the builder: without `keyImages` nothing; otherwise
      the store images and the featured media replace the builder's. */
  function WithGameMedia(g: Game, keyImages: Option<seq<KeyImage>>): (r: Game)
    ensures keyImages.None? ==> r == g
    ensures keyImages.Some? ==> r == g.(storeMedia := StoreImages(keyImages.value), media := FeaturedMedia(keyImages.value))
  {
    match keyImages
    case None => g
    case Some(images) => g.(storeMedia := StoreImages(images), media := FeaturedMedia(images))
  }

  /** `setGameMedia`: sorts the key images into a map and a list in one loop. */
  method SetGameMedia(keyImages: Option<seq<KeyImage>>, game: Game) returns (g: Game)
    ensures g == WithGameMedia(game, keyImages)
  {
    if keyImages.None? {
      return game;
    }
    var keyImageList := keyImages.value;
    var storeImages: map<string, string> := map[];
    var media: seq<string> := [];
    var i := 0;
    while i < |keyImageList|
      invariant 0 <= i <= |keyImageList|
      invariant storeImages == StoreImages(keyImageList[..i])
      invariant media == FeaturedMedia(keyImageList[..i])
    {
      assert keyImageList[..i + 1][..i] == keyImageList[..i];
      var imageNode := keyImageList[i];
      if EqualsIgnoreCase(imageNode.kind, "featuredMedia") {
        media := media + [imageNode.url];
        i := i + 1;
        continue;
      }
      storeImages := storeImages[imageNode.kind := imageNode.url];
      i := i + 1;
    }
    assert keyImageList[..i] == keyImageList;
    g := game.(storeMedia := storeImages, media := media);
  }

  // ---------------------------------------------------------------------------
  // Element conversion

  /** What `jsonToGame` returns: null unless the discount price is 0, else the game,
      or the parse exception when the expiration search throws. The title is read
      unguarded; its caller has checked it is there. */
  function ElementGame(e: Element, cfg: Config): (r: Result<Option<Game>>)
    requires e.title.Some?
    ensures r == Ok(None) <==> e.discountPrice != 0
    ensures r.Err? <==> e.discountPrice == 0 && OfferExpiration(AllOffers(e), cfg.now, cfg.parseInstant).Err?
    ensures r.Err? ==> r.reason == ParseFailed
    ensures r.Ok? && r.value.Some? ==>
              var g := r.value.value;
              g.title == e.title && g.description == Some(e.description)
              && g.isDLC == IsEpicDLC(e.offerType) && g.platform == EpicGames
              && g.url == Some(GameUrl(e, IsEpicDLC(e.offerType), cfg.language, cfg.country))
              && g.originalPrice == cfg.formatPrice(e.originalPrice, e.decimals)
              && Ok(g.expirationEpoch) == OfferExpiration(AllOffers(e), cfg.now, cfg.parseInstant)
    ensures r.Ok? && r.value.Some? && e.keyImages.None? ==> r.value.value.storeMedia == map[] && r.value.value.media == []
  {
    if e.discountPrice != 0 then Ok(None)
    else match OfferExpiration(AllOffers(e), cfg.now, cfg.parseInstant)
      case Err(reason) => Err(reason)
      case Ok(expirationEpoch) =>
        var isDLC := IsEpicDLC(e.offerType);
        var game := Builder().(title := e.title, description := Some(e.description),
                               url := Some(GameUrl(e, isDLC, cfg.language, cfg.country)),
                               originalPrice := cfg.formatPrice(e.originalPrice, e.decimals),
                               isDLC := isDLC, platform := EpicGames, expirationEpoch := expirationEpoch);
        Ok(Some(WithGameMedia(game, e.keyImages)))
  }

  /** `jsonToGame`. */
  method JsonToGame(e: Element, cfg: Config) returns (r: Result<Option<Game>>)
    requires e.title.Some?
    ensures r == ElementGame(e, cfg)
  {
    var isDLC := EqualsIgnoreCase(e.offerType, "DLC") || EqualsIgnoreCase(e.offerType, "ADD_ON");
    if e.discountPrice != 0 {
      return Ok(None);
    }
    var expirationEpoch := GetOfferExpirationEpoch(e, cfg.now, cfg.parseInstant);
    if expirationEpoch.Err? {
      return Err(expirationEpoch.reason);
    }
    var game := Builder().(title := e.title, description := Some(e.description),
                           url := Some(GameUrl(e, isDLC, cfg.language, cfg.country)),
                           originalPrice := cfg.formatPrice(e.originalPrice, e.decimals),
                           isDLC := isDLC, platform := EpicGames, expirationEpoch := expirationEpoch.value);
    game := SetGameMedia(e.keyImages, game);
    return Ok(Some(game));
  }

  // ---------------------------------------------------------------------------
  // Processing element lists

  /** The titles of the games collected so far. */
  function Titles(games: seq<Game>): set<Option<string>> {
    set i | 0 <= i < |games| :: games[i].title
  }

  /** Whether an element passes `processElementsNode`'s filters against the titles known
      when the call began, and the game it then yields; Err when converting it throws. */
  function Accept(existing: set<Option<string>>, e: Element, cfg: Config): Result<Option<Game>> {
    if e.title.None? || e.title in existing then Ok(None)
    else match ElementGame(e, cfg)
      case Err(reason) => Err(reason)
      case Ok(None) => Ok(None)
      case Ok(Some(g)) => if !cfg.includeDLCs && g.isDLC then Ok(None) else Ok(Some(g))
  }

  /** The games `accept` yields for the elements, in element order; the first element
      whose conversion throws ends the walk with its exception. */
  function Kept(elements: seq<Element>, accept: Element -> Result<Option<Game>>): Result<seq<Game>> {
    if elements == [] then Ok([])
    else
      var acc := Kept(elements[..|elements| - 1], accept);
      if acc.Err? then acc
      else match accept(elements[|elements| - 1])
        case Err(reason) => Err(reason)
        case Ok(None) => acc
        case Ok(Some(g)) => Ok(acc.value + [g])
  }

  lemma {:induction false} KeptMembers(elements: seq<Element>, accept: Element -> Result<Option<Game>>, g: Game)
    ensures Kept(elements, accept).Ok? ==>
              (g in Kept(elements, accept).value <==> exists i :: 0 <= i < |elements| && accept(elements[i]) == Ok(Some(g)))
    decreases |elements|
  {
    if elements != [] {
      var init := elements[..|elements| - 1];
      KeptMembers(init, accept, g);
      assert forall i :: 0 <= i < |init| ==> init[i] == elements[i];
    }
  }

  /** The walk fails exactly when some conversion throws, and then with the exception
      of the first one. */
  lemma {:induction false} KeptFails(elements: seq<Element>, accept: Element -> Result<Option<Game>>)
    ensures Kept(elements, accept).Err? <==> exists i :: 0 <= i < |elements| && accept(elements[i]).Err?
    ensures Kept(elements, accept).Err? ==>
              exists i :: 0 <= i < |elements| && accept(elements[i]) == Err(Kept(elements, accept).reason)
                          && forall j :: 0 <= j < i ==> accept(elements[j]).Ok?
    decreases |elements|
  {
    if elements != [] {
      var init := elements[..|elements| - 1];
      KeptFails(init, accept);
      assert forall i :: 0 <= i < |init| ==> init[i] == elements[i];
      if Kept(init, accept).Ok? && accept(elements[|elements| - 1]).Err? {
        assert forall j :: 0 <= j < |init| ==> accept(elements[j]).Ok?;
      }
    }
  }

  lemma {:induction false} KeptAppend(a: seq<Element>, b: seq<Element>, accept: Element -> Result<Option<Game>>)
    ensures Kept(a + b, accept)
            == if Kept(a, accept).Err? then Kept(a, accept)
               else if Kept(b, accept).Err? then Kept(b, accept)
               else Ok(Kept(a, accept).value + Kept(b, accept).value)
    decreases |b|
  {
    if b == [] {
      assert a + b == a;
      if Kept(a, accept).Ok? {
        assert Kept(a, accept).value + [] == Kept(a, accept).value;
      }
    } else {
      var b' := b[..|b| - 1];
      assert (a + b)[..|a + b| - 1] == a + b';
      assert (a + b)[|a + b| - 1] == b[|b| - 1];
      KeptAppend(a, b', accept);
      if Kept(a, accept).Ok? && Kept(b', accept).Ok? {
        match accept(b[|b| - 1])
        case Ok(Some(g)) =>
          AppendAssoc(Kept(a, accept).value, Kept(b', accept).value, [g]);
        case _ =>
      }
    }
  }

  /** The games one call adds, in element order, or the exception that ends it. */
  function NewGames(existing: set<Option<string>>, elements: seq<Element>, cfg: Config): Result<seq<Game>> {
    Kept(elements, e => Accept(existing, e, cfg))
  }

  /** What `processElementsNode` leaves in the result set: the old results followed by
      the new games; the parse exception is the only way it fails. */
  function ProcessElements(results: seq<Game>, elements: seq<Element>, cfg: Config): (r: Result<seq<Game>>)
    ensures r.Err? ==> r == Err(ParseFailed)
    ensures r.Ok? ==> results <= r.value
  {
    NewGamesFails(Titles(results), elements, cfg);
    match NewGames(Titles(results), elements, cfg)
    case Err(reason) => Err(reason)
    case Ok(added) => Ok(results + added)
  }

  /** A game is added exactly when some element with a title not known at the start of
      the call converts to it and is not an excluded DLC. */
  lemma NewGamesMembers(existing: set<Option<string>>, elements: seq<Element>, cfg: Config, g: Game)
    ensures NewGames(existing, elements, cfg).Ok? ==>
              (g in NewGames(existing, elements, cfg).value <==>
                 exists i :: 0 <= i < |elements| && elements[i].title.Some? && elements[i].title !in existing
                             && ElementGame(elements[i], cfg) == Ok(Some(g)) && (cfg.includeDLCs || !g.isDLC))
  {
    KeptMembers(elements, e => Accept(existing, e, cfg), g);
    if NewGames(existing, elements, cfg).Ok? && g in NewGames(existing, elements, cfg).value {
      var i :| 0 <= i < |elements| && Accept(existing, elements[i], cfg) == Ok(Some(g));
      assert elements[i].title.Some? && elements[i].title !in existing;
    }
    if exists i :: 0 <= i < |elements| && elements[i].title.Some? && elements[i].title !in existing
                   && ElementGame(elements[i], cfg) == Ok(Some(g)) && (cfg.includeDLCs || !g.isDLC) {
      var i :| 0 <= i < |elements| && elements[i].title.Some? && elements[i].title !in existing
               && ElementGame(elements[i], cfg) == Ok(Some(g)) && (cfg.includeDLCs || !g.isDLC);
      assert Accept(existing, elements[i], cfg) == Ok(Some(g));
    }
  }

  /** A call throws exactly when some element with a new title has a 100% offer whose
      end date does not parse before any offer that decides; the exception is the
      parse exception. */
  lemma NewGamesFails(existing: set<Option<string>>, elements: seq<Element>, cfg: Config)
    ensures NewGames(existing, elements, cfg).Err? <==>
              exists i :: 0 <= i < |elements| && elements[i].title.Some? && elements[i].title !in existing
                          && ElementGame(elements[i], cfg).Err?
    ensures NewGames(existing, elements, cfg).Err? ==> NewGames(existing, elements, cfg) == Err(ParseFailed)
  {
    KeptFails(elements, e => Accept(existing, e, cfg));
    if NewGames(existing, elements, cfg).Err? {
      var i :| 0 <= i < |elements| && Accept(existing, elements[i], cfg) == Err(NewGames(existing, elements, cfg).reason);
      assert elements[i].title.Some? && elements[i].title !in existing;
    }
    if exists i :: 0 <= i < |elements| && elements[i].title.Some? && elements[i].title !in existing
                   && ElementGame(elements[i], cfg).Err? {
      var i :| 0 <= i < |elements| && elements[i].title.Some? && elements[i].title !in existing
               && ElementGame(elements[i], cfg).Err?;
      assert Accept(existing, elements[i], cfg).Err?;
    }
  }

  /** Titles are checked only against the set taken when the call began: the games of
      a concatenation of element lists are the concatenated games, so two elements with
      the same new title in one call are both added; an exception in the first list
      ends the call before the second is read. */
  lemma NewGamesAppend(existing: set<Option<string>>, a: seq<Element>, b: seq<Element>, cfg: Config)
    ensures NewGames(existing, a + b, cfg)
            == if NewGames(existing, a, cfg).Err? then NewGames(existing, a, cfg)
               else if NewGames(existing, b, cfg).Err? then NewGames(existing, b, cfg)
               else Ok(NewGames(existing, a, cfg).value + NewGames(existing, b, cfg).value)
  {
    KeptAppend(a, b, e => Accept(existing, e, cfg));
  }

  /** A later call never adds a game whose title an earlier call already collected. */
  lemma KnownTitlesSkipped(results: seq<Game>, elements: seq<Element>, cfg: Config, g: Game)
    requires NewGames(Titles(results), elements, cfg).Ok? && g in NewGames(Titles(results), elements, cfg).value
    ensures g.title !in Titles(results)
  {
    NewGamesMembers(Titles(results), elements, cfg, g);
  }

  lemma AcceptConverted(existing: set<Option<string>>, e: Element, cfg: Config, game: Result<Option<Game>>)
    requires e.title.Some? && e.title !in existing && game == ElementGame(e, cfg)
    ensures Accept(existing, e, cfg)
            == if game.Ok? && game.value.Some? && !cfg.includeDLCs && game.value.value.isDLC then Ok(None) else game
  {
  }

  lemma NewGamesStep(existing: set<Option<string>>, elements: seq<Element>, i: nat, cfg: Config)
    requires i < |elements|
    ensures NewGames(existing, elements[..i + 1], cfg)
            == if NewGames(existing, elements[..i], cfg).Err? then NewGames(existing, elements[..i], cfg)
               else match Accept(existing, elements[i], cfg)
                 case Err(reason) => Err(reason)
                 case Ok(None) => NewGames(existing, elements[..i], cfg)
                 case Ok(Some(g)) => Ok(NewGames(existing, elements[..i], cfg).value + [g])
  {
    assert elements[..i + 1][..i] == elements[..i];
  }

  /** `processElementsNode`: the known titles are computed once, then each element is
      checked and converted in turn. An exception leaves the games added before it in
      the list, and is returned. */
  method ProcessElementsNode(elements: seq<Element>, scraperResultSet: ArrayList<Game>, cfg: Config)
    returns (failure: Option<string>)
    modifies scraperResultSet
    ensures failure.None? <==> ProcessElements(old(scraperResultSet.items), elements, cfg).Ok?
    ensures failure.None? ==> scraperResultSet.items == ProcessElements(old(scraperResultSet.items), elements, cfg).value
    ensures failure.Some? ==> ProcessElements(old(scraperResultSet.items), elements, cfg) == Err(failure.value)
    ensures old(scraperResultSet.items) <= scraperResultSet.items
  {
    var existingTitles := Titles(scraperResultSet.items);
    var i := 0;
    while i < |elements|
      invariant 0 <= i <= |elements|
      invariant NewGames(existingTitles, elements[..i], cfg).Ok?
      invariant scraperResultSet.items == old(scraperResultSet.items) + NewGames(existingTitles, elements[..i], cfg).value
    {
      NewGamesStep(existingTitles, elements, i, cfg);
      ghost var added := NewGames(existingTitles, elements[..i], cfg).value;
      var gameNode := elements[i];
      if gameNode.title.None? || gameNode.title in existingTitles {
        assert added + [] == added;
        i := i + 1;
        continue;
      }
      var game := JsonToGame(gameNode, cfg);
      AcceptConverted(existingTitles, gameNode, cfg, game);
      if game.Err? {
        NewGamesAppend(existingTitles, elements[..i + 1], elements[i + 1..], cfg);
        assert elements[..i + 1] + elements[i + 1..] == elements;
        return Some(game.reason);
      }
      var isInvalidGame := game.value.None? || (!cfg.includeDLCs && game.value.value.isDLC);
      if !isInvalidGame {
        AppendAssoc(old(scraperResultSet.items), added, [game.value.value]);
        scraperResultSet.Add(game.value.value);
      } else {
        assert added + [] == added;
      }
      i := i + 1;
    }
    assert elements[..i] == elements;
    return None;
  }

  // ---------------------------------------------------------------------------
  // Paging

  /** The `start` of request `k`: each page moves it on by its `count` plus one. */
  function StartIndex(pages: seq<Page>, k: nat): int
    requires k <= |pages|
  {
    if k == 0 then 0 else StartIndex(pages, k - 1) + pages[k - 1].count + 1
  }

  /** How many pages the do-while loop fetches when it starts at request `k`: it stops
      after the first page whose next start reaches its `total`; None when the
      responses run out first. */
  function PageCountFrom(pages: seq<Page>, k: nat): (n: Option<nat>)
    requires k <= |pages|
    ensures n.Some? ==> k < n.value <= |pages|
    ensures n.Some? ==> StartIndex(pages, n.value) >= pages[n.value - 1].total
    ensures n.Some? ==> forall j :: k <= j < n.value - 1 ==> StartIndex(pages, j + 1) < pages[j].total
    decreases |pages| - k
  {
    if k == |pages| then None
    else if StartIndex(pages, k + 1) < pages[k].total then PageCountFrom(pages, k + 1)
    else Some(k + 1)
  }

  lemma PageCountStep(pages: seq<Page>, k: nat)
    requires k < |pages|
    ensures StartIndex(pages, k + 1) == StartIndex(pages, k) + pages[k].count + 1
    ensures PageCountFrom(pages, k)
            == if StartIndex(pages, k + 1) < pages[k].total then PageCountFrom(pages, k + 1) else Some(k + 1)
  {
  }

  /** How many search responses `retrieveResults` processes, unless one throws: up to
      the stopping page, or all of them when the responses run out. */
  function FetchedPages(pages: seq<Page>): nat {
    match PageCountFrom(pages, 0)
    case None => |pages|
    case Some(n) => n
  }

  /** The results after the first `n` pages, or the exception that ended them. */
  function PagedGames(pages: seq<Page>, n: nat, cfg: Config): (r: Result<seq<Game>>)
    requires n <= |pages|
    ensures r.Err? ==> r == Err(ParseFailed)
  {
    if n == 0 then Ok([])
    else
      var prev := PagedGames(pages, n - 1, cfg);
      if prev.Err? then prev else ProcessElements(prev.value, pages[n - 1].elements, cfg)
  }

  lemma PagedGamesStep(pages: seq<Page>, k: nat, cfg: Config)
    requires k < |pages|
    ensures PagedGames(pages, k + 1, cfg)
            == if PagedGames(pages, k, cfg).Err? then PagedGames(pages, k, cfg)
               else ProcessElements(PagedGames(pages, k, cfg).value, pages[k].elements, cfg)
  {
  }

  /** The message of the GameRetrievalException `retrieveResults` throws when a request
      fails. */
  const RetrievalFailed: string := "Unable to retrieve games from EpicGames"

  /** What the do-while loop of `retrieveResults` leaves: the games of every fetched
      page; a page whose processing throws stops the paging with the parse exception,
      unwrapped; a search request that throws IOException fails with the wrapped
      message. */
  function PagingResult(pages: seq<Page>, cfg: Config): Result<seq<Game>> {
    var paged := PagedGames(pages, FetchedPages(pages), cfg);
    if paged.Err? then paged
    else if PageCountFrom(pages, 0).None? then Err(RetrievalFailed)
    else paged
  }

  /** What `retrieveResults` returns: the paging's games, then those of the
      promotions when they were returned; a promotions request that throws
      IOException fails the whole call with the wrapped message. */
  function RetrieveResultsSpec(pages: seq<Page>, promotions: Response<seq<Element>>, cfg: Config): Result<seq<Game>> {
    match PagingResult(pages, cfg)
    case Err(reason) => Err(reason)
    case Ok(paged) =>
      match promotions
      case Err(_) => Err(RetrievalFailed)
      case Ok(None) => Ok(paged)
      case Ok(Some(elements)) => ProcessElements(paged, elements, cfg)
  }

  /** Each page only appends: the results of fewer pages are a prefix, and an
      exception on an earlier page is the result of every later count. */
  lemma {:induction false} PagedGamesGrow(pages: seq<Page>, m: nat, n: nat, cfg: Config)
    requires m <= n <= |pages|
    ensures PagedGames(pages, m, cfg).Err? ==> PagedGames(pages, n, cfg) == PagedGames(pages, m, cfg)
    ensures PagedGames(pages, n, cfg).Ok? ==>
              PagedGames(pages, m, cfg).Ok? && PagedGames(pages, m, cfg).value <= PagedGames(pages, n, cfg).value
    decreases n - m
  {
    if m < n {
      PagedGamesGrow(pages, m, n - 1, cfg);
    }
  }

  /** `retrieveResults` fails with the wrapped message exactly when no page throws and
      a search request or the promotions request fails; a page that throws gives the
      parse exception; those are the only failures. Otherwise the games of the
      fetched pages come first, and are all there is when the promotions node is
      missing. */
  lemma RetrieveResultsOutcome(pages: seq<Page>, promotions: Response<seq<Element>>, cfg: Config)
    ensures PagedGames(pages, FetchedPages(pages), cfg).Err?
            ==> RetrieveResultsSpec(pages, promotions, cfg) == Err(ParseFailed)
    ensures RetrieveResultsSpec(pages, promotions, cfg) == Err(RetrievalFailed)
            <==> PagedGames(pages, FetchedPages(pages), cfg).Ok? && (PageCountFrom(pages, 0).None? || promotions.Err?)
    ensures RetrieveResultsSpec(pages, promotions, cfg).Err?
            ==> RetrieveResultsSpec(pages, promotions, cfg).reason in {RetrievalFailed, ParseFailed}
    ensures RetrieveResultsSpec(pages, promotions, cfg).Ok?
            ==> PagedGames(pages, FetchedPages(pages), cfg).Ok?
                && PagedGames(pages, FetchedPages(pages), cfg).value <= RetrieveResultsSpec(pages, promotions, cfg).value
    ensures RetrieveResultsSpec(pages, promotions, cfg).Ok? && promotions == Ok(None)
            ==> RetrieveResultsSpec(pages, promotions, cfg) == PagedGames(pages, FetchedPages(pages), cfg)
  {
    assert ParseFailed[0] != RetrievalFailed[0];
  }

  /** The do-while loop of `retrieveResults`. `pages[k]` is the search response to the
      k-th request, the requested start indexes are returned in `starts`, and running
      out of responses stands for the request failing. */
  method FetchPages(pages: seq<Page>, cfg: Config)
    returns (paged: Result<seq<Game>>, scraperResultSet: ArrayList<Game>, starts: seq<int>)
    ensures fresh(scraperResultSet)
    ensures paged == PagingResult(pages, cfg)
    ensures paged.Ok? ==> scraperResultSet.items == paged.value
    ensures paged.Ok? ==> |starts| == PageCountFrom(pages, 0).value && |starts| >= 1
    ensures |starts| <= |pages| && forall j :: 0 <= j < |starts| ==> starts[j] == StartIndex(pages, j)
  {
    scraperResultSet := new ArrayList<Game>();
    var startIndex := 0;
    var k := 0;
    starts := [];
    var more := true;
    while more
      invariant 0 <= k <= |pages| && |starts| == k
      invariant startIndex == StartIndex(pages, k)
      invariant forall j :: 0 <= j < k ==> starts[j] == StartIndex(pages, j)
      invariant PagedGames(pages, k, cfg).Ok? && scraperResultSet.items == PagedGames(pages, k, cfg).value
      invariant more ==> PageCountFrom(pages, 0) == PageCountFrom(pages, k)
      invariant !more ==> PageCountFrom(pages, 0) == Some(k)
      invariant fresh(scraperResultSet)
      decreases |pages| - k
    {
      if k == |pages| {
        return Err(RetrievalFailed), scraperResultSet, starts;
      }
      var searchStoreNode := pages[k];
      starts := starts + [startIndex];
      assert forall j :: 0 <= j < k + 1 ==> starts[j] == StartIndex(pages, j);
      var failure := ProcessElementsNode(searchStoreNode.elements, scraperResultSet, cfg);
      PagedGamesStep(pages, k, cfg);
      if failure.Some? {
        PagedGamesGrow(pages, k + 1, FetchedPages(pages), cfg);
        return Err(failure.value), scraperResultSet, starts;
      }
      var pagingTotal := searchStoreNode.total;
      var pagingCount := searchStoreNode.count;
      startIndex := startIndex + pagingCount + 1;
      PageCountStep(pages, k);
      k := k + 1;
      more := startIndex < pagingTotal;
    }
    return Ok(scraperResultSet.items), scraperResultSet, starts;
  }

  /** `retrieveResults`: the paging, then the free-game promotions. */
  method RetrieveResults(pages: seq<Page>, promotions: Response<seq<Element>>, cfg: Config)
    returns (r: Result<seq<Game>>, starts: seq<int>)
    ensures r == RetrieveResultsSpec(pages, promotions, cfg)
    ensures r.Ok? ==> |starts| == PageCountFrom(pages, 0).value && |starts| >= 1
    ensures |starts| <= |pages| && forall j :: 0 <= j < |starts| ==> starts[j] == StartIndex(pages, j)
  {
    var paged, scraperResultSet;
    paged, scraperResultSet, starts := FetchPages(pages, cfg);
    if paged.Err? {
      return Err(paged.reason), starts;
    }
    if promotions.Err? {
      return Err(RetrievalFailed), starts;
    }
    if promotions.value.Some? {
      var failure := ProcessElementsNode(promotions.value.value, scraperResultSet, cfg);
      if failure.Some? {
        return Err(failure.value), starts;
      }
    }
    return Ok(scraperResultSet.items), starts;
  }
}
