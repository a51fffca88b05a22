/** The domain classes shared by the scrapers and the orchestrators: Platform, Game,
    ScraperResult (both package trees) and SteamClanEvent. */
module Domain {
  import opened Common

  /** The store a listing comes from. */
  datatype Platform = Steam | EpicGames | Gog | Undefined

  /** A free game listing. Lombok's @Data equality compares every field, which is what
      equality on this datatype does. `title`, `description` and `url` are None when the
      builder never set them (Java null). */
  datatype Game = Game(
    title: Option<string>,
    description: Option<string>,
    url: Option<string>,
    isDLC: bool,
    originalPrice: string,
    platform: Platform,
    storeMedia: map<string, string>,
    media: seq<string>,
    expirationEpoch: int)

  /** `Game.builder()`: every field at its builder default. */
  function Builder(): (g: Game)
    ensures g.title == None && g.description == None && g.url == None && !g.isDLC
    ensures g.originalPrice == "N/A"
    ensures g.platform == Undefined
    ensures g.storeMedia == map[] && g.media == []
    ensures g.expirationEpoch == NoExpirationEpoch
  {
    Game(None, None, None, false, "N/A", Undefined, map[], [], NoExpirationEpoch)
  }

  /** `GameBuilder.originalPrice(String)` (and the @Setter): stores the text verbatim
      and touches no other field. */
  function WithOriginalPrice(g: Game, price: string): (r: Game)
    ensures r.originalPrice == price
    ensures r.title == g.title && r.description == g.description && r.url == g.url
    ensures r.isDLC == g.isDLC && r.platform == g.platform && r.storeMedia == g.storeMedia
    ensures r.media == g.media && r.expirationEpoch == g.expirationEpoch
  {
    g.(originalPrice := price)
  }

  /** `setExpirationEpoch`: changes the epoch and nothing else. */
  function WithExpirationEpoch(g: Game, epoch: int): (r: Game)
    ensures r.expirationEpoch == epoch
    ensures r.title == g.title && r.description == g.description && r.url == g.url
    ensures r.isDLC == g.isDLC && r.platform == g.platform && r.storeMedia == g.storeMedia
    ensures r.media == g.media && r.originalPrice == g.originalPrice
  {
    g.(expirationEpoch := epoch)
  }

  /** A CompletableFuture<Game>, already resolved. `handle` stands for the object's
      identity (CompletableFuture does not override equals); `value` is what `join()`
      returns, None for a future completed with null. */
  datatype Future = Future(handle: nat, value: Option<Game>)

  /** A scraper's output: a ready game or a game still waiting on a web scrape. */
  datatype ScraperResult = ScraperResult(game: Option<Game>, futureGame: Option<Future>)

  /** `new ScraperResult(Game)`. */
  function ReadyResult(g: Game): (r: ScraperResult)
    ensures r.game == Some(g) && r.futureGame == None
  {
    ScraperResult(Some(g), None)
  }

  /** `new ScraperResult(CompletableFuture<Game>)`. */
  function PendingResult(f: Future): (r: ScraperResult)
    ensures r.game == None && r.futureGame == Some(f)
  {
    ScraperResult(None, Some(f))
  }

  /** Reference equality of two nullable CompletableFuture fields. */
  predicate SameFuture(a: Option<Future>, b: Option<Future>) {
    match (a, b)
    case (None, None) => true
    case (Some(x), Some(y)) => x.handle == y.handle
    case _ => false
  }

  /** Lombok's @EqualsAndHashCode of the newer ScraperResult: games compared with
      Game.equals, futures by identity. */
  predicate ResultEquals(a: ScraperResult, b: ScraperResult) {
    a.game == b.game && SameFuture(a.futureGame, b.futureGame)
  }

  /** The newer equality is an equivalence relation, as equals must be. */
  lemma ResultEqualsIsEquivalence(a: ScraperResult, b: ScraperResult, c: ScraperResult)
    ensures ResultEquals(a, a)
    ensures ResultEquals(a, b) ==> ResultEquals(b, a)
    ensures ResultEquals(a, b) && ResultEquals(b, c) ==> ResultEquals(a, c)
  {
  }

  /** Two ready results are equal exactly when their games are; a ready result never
      equals a pending one. */
  lemma ReadyAndPendingEquality(g1: Game, g2: Game, f: Future)
    ensures ResultEquals(ReadyResult(g1), ReadyResult(g2)) <==> g1 == g2
    ensures !ResultEquals(ReadyResult(g1), PendingResult(f))
    ensures !ResultEquals(PendingResult(f), ReadyResult(g1))
  {
  }

  /** The argument of the older `ScraperResult.equals(Object)`: another ScraperResult,
      or anything else (null included). */
  datatype Other = OtherResult(result: ScraperResult) | NotAResult

  /** The older `ScraperResult.equals`: games must both be null or equal; futures must
      both be null, or both resolve and the first one's game equals the second one's.
      When this result's future resolves to null, `gameOne::equals` throws and `join()`
      rethrows; that is the Err case. */
  function LegacyEquals(self: ScraperResult, obj: Other): (r: Result<bool>)
    ensures r.Err? <==> obj.OtherResult? && self.futureGame.Some?
                        && obj.result.futureGame.Some? && self.futureGame.value.value.None?
    ensures obj.NotAResult? ==> r == Ok(false)
    ensures r == Ok(true) ==> obj.OtherResult? && self.game == obj.result.game
    ensures r == Ok(true) ==> (self.futureGame.None? <==> obj.result.futureGame.None?)
    ensures obj.OtherResult? && r.Ok? ==>
              (r.value <==> self.game == obj.result.game
                            && ((self.futureGame.None? && obj.result.futureGame.None?)
                                || (self.futureGame.Some? && obj.result.futureGame.Some?
                                    && self.futureGame.value.value == obj.result.futureGame.value.value)))
  {
    match obj
    case NotAResult => Ok(false)
    case OtherResult(other) =>
      var gamesEqualOrNull := self.game == other.game;
      match (self.futureGame, other.futureGame)
      case (Some(mine), Some(theirs)) =>
        if mine.value.None? then Err("NullPointerException in gameOne::equals")
        else Ok(gamesEqualOrNull && Some(mine.value.value) == theirs.value)
      case (None, None) => Ok(gamesEqualOrNull)
      case _ => Ok(false)
  }

  /** The older equality never reports a ready result equal to a pending one, and two
      ready results are equal exactly when their games are. */
  lemma LegacyReadyAndPending(g1: Game, g2: Game, f: Future)
    ensures LegacyEquals(ReadyResult(g1), OtherResult(ReadyResult(g2))) == Ok(g1 == g2)
    ensures LegacyEquals(ReadyResult(g1), OtherResult(PendingResult(f))) == Ok(false)
    ensures LegacyEquals(PendingResult(f), OtherResult(ReadyResult(g1))) == Ok(false)
  {
  }

  /** The older equality is not symmetric: with a future resolving to a game on one
      side and a future resolving to null on the other, one direction answers false
      and the other throws. */
  lemma LegacyEqualsNotSymmetric(g: Game)
    ensures LegacyEquals(PendingResult(Future(0, Some(g))), OtherResult(PendingResult(Future(1, None)))) == Ok(false)
    ensures LegacyEquals(PendingResult(Future(1, None)), OtherResult(PendingResult(Future(0, Some(g))))).Err?
  {
  }

  /** What a scraper hands back for one listing: `new ScraperResult(game)`, or
      `new ScraperResult(webScraper.modifyGameAttributes(game))`, the game still to be
      completed by a web scrape. */
  datatype Produced = ReadyGame(game: Game) | ScrapeLater(game: Game)

  /** SteamClanEvent. */
  datatype ClanEvent = ClanEvent(
    name: string,
    endEpoch: int,
    includedApps: set<string>,
    includedPackages: set<string>,
    includedBundles: set<string>)
}
