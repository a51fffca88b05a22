# GameFinder in Dafny

GameFinder is a Java library that finds games and DLC that are temporarily free (a 100% discount)
on Steam, the Epic Games Store and GOG, and turns each listing into one `Game` record: title,
description, URL, price text, platform, store media, screenshots and an expiration epoch (seconds,
or the sentinel `-1` when no end time is known). A `GameFinder` orchestrator asks every enabled
platform scraper for `ScraperResult`s; a result is either a ready `Game` or a pending future that a
web scraper or a Steam utility completes later. The orchestrator splits results into ready and
pending lists, joins the pending ones, and returns or streams the games through callbacks.

The repository carries two package trees: the newer `io.github.theforbiddenai.gamefinder` tree and
the older `me.theforbiddenai.gamefinder` tree. Both are modelled where they hold core logic.

| Dafny module (file) | Java source |
|---|---|
| `Common` (common.dfy) | the shared constants (`NO_EXPIRATION_EPOCH`, Steam store and CDN URLs) and the `Option`/`Result` wrappers |
| `Strings` (strings.dfy) | the string helpers the scrapers use (`contains`, `endsWith`, `isBlank`, `indexOf`, `lastIndexOf`, `replace`, `String.join`, ASCII case folding) |
| `Domain` (domain.dfy) | `domain/Game.java` and its builder, both `domain/ScraperResult.java` |
| `Callbacks` (callbacks.dfy) | the `ArrayList`/`HashSet` state the orchestrators mutate and the two callback interfaces |
| `GameFinder` (game_finder.dfy) | newer `GameFinder.java` |
| `LegacyGameFinder` (game_finder_legacy.dfy) | older `GameFinder.java` |
| `SteamScraper`, `LegacySteamScraper` | newer and older `scraper/impl/SteamScraper.java` |
| `EpicGamesScraper` | older `scraper/impl/EpicGamesScraper.java` |
| `GogScraper`, `LegacyGogScraper` | newer and older `scraper/impl/GOGScraper.java` |
| `GogWebScraper`, `GogWebScrape` | older `webscraper/GOGWebScraper.java` and `webscraper/GOGWebScrape.java` |
| `SteamWebScraper` | older `webscraper/SteamWebScraper.java` and `webscraper/SteamWebScrape.java` |
| `SteamPurchaseScrape` | older `utilities/SteamWebScrape.java` |
| `SteamAppToGame`, `SteamPackageToGame` | older `utilities/SteamAppToGame.java`, `utilities/SteamPackageToGame.java` |
| `ClanEvents` (class `SteamParseClanEvents`) | older `utilities/SteamParseClanEvents.java` |

JSON responses become datatypes whose optional fields are `Option`s. Code that mutates lists, sets
and objects in loops (the orchestrators, the result collection loops, the GOG field scanners, the
clan-event parser) is written as methods over classes with `seq`/`map` fields, each proved against
a specification function; the search loops and guard chains are functions, with lemmas that give
their meaning (first match, membership, order, what is left unchanged). HTTP calls, regex matching,
date parsing, the clock and price formatting are function parameters.

Some behaviour of the code as written is easy to miss; the model keeps it:

- The clan-event lookups promise, in their Javadoc, the first event "that has an end time in the
  future" (`utilities/SteamParseClanEvents.java:121-134` of the older tree), but they compare an end
  epoch in seconds with `System.currentTimeMillis()`, so a present-day event is never found
  (`ClanEvents.SecondsNeverAfterMillis`).
- A web scrape or Steam utility that fails does not fall back to the `-1` sentinel: the code throws,
  or fails the future (`webscraper/WebScraper.java:52-61`), and the model returns those paths as
  `Err` values. A request helper that throws `IOException` is an `Err` as well, and each scraper
  wraps it in its `GameRetrievalException` message.
- The older Steam scraper reads a missing `discount_amount` as `-1`
  (`scraper/impl/SteamScraper.java:181` of the older tree), so such a discount matches when the
  original price is `-1` (`LegacySteamScraper.MissingAmountMatchesSentinelPrice`).
- `joinIds` appends "," whenever more input nodes remain, so a skipped last node leaves a trailing
  comma (`SteamScraper.JoinIdsTrailingComma`), and the Epic pager advances by `count + 1`
  (`EpicGamesScraper.PageCountFrom`).

## Model

| member | source | states |
|---|---|---|
| Domain.Builder | src/main/java/io/github/theforbiddenai/gamefinder/domain/Game.java:30-42 | a fresh builder leaves title, description and url null, isDLC false, price "N/A", platform UNDEFINED, empty media and the -1 epoch |
| Domain.WithOriginalPrice | src/main/java/io/github/theforbiddenai/gamefinder/domain/Game.java:76-79 | the text becomes the price verbatim and no other field changes |
| Domain.WithExpirationEpoch | src/main/java/io/github/theforbiddenai/gamefinder/domain/Game.java:41-42 | the setter changes the epoch and no other field |
| Domain.ReadyResult | src/main/java/io/github/theforbiddenai/gamefinder/domain/ScraperResult.java:22-25 | the game constructor sets the game and leaves the future null |
| Domain.PendingResult | src/main/java/io/github/theforbiddenai/gamefinder/domain/ScraperResult.java:27-30 | the future constructor sets the future and leaves the game null |
| Domain.ResultEqualsIsEquivalence | src/main/java/io/github/theforbiddenai/gamefinder/domain/ScraperResult.java:16 | the generated field-wise equality is reflexive, symmetric and transitive |
| Domain.ReadyAndPendingEquality | src/main/java/io/github/theforbiddenai/gamefinder/domain/ScraperResult.java:16-30 | two ready results are equal iff their games are; a ready result never equals a pending one |
| Domain.LegacyEquals | src/main/java/me/theforbiddenai/gamefinder/domain/ScraperResult.java:23-50 | false for a non-ScraperResult; throws exactly when both futures are present and this one resolves to null; otherwise true exactly when the games are both null or equal and the futures are both null, or both present and resolving to the same game |
| Domain.LegacyReadyAndPending | src/main/java/me/theforbiddenai/gamefinder/domain/ScraperResult.java:35-48 | two ready results are equal iff their games are; a ready and a pending result are never equal, in either order |
| Domain.LegacyEqualsNotSymmetric | src/main/java/me/theforbiddenai/gamefinder/domain/ScraperResult.java:42-46 | with a future resolving to null on one side, one direction answers false and the other throws |
| Callbacks.GameCallback.RetrieveGame | src/main/java/io/github/theforbiddenai/gamefinder/callback/GameRetrievalCallback.java:13 | each call is recorded as one more batch, in call order |
| Callbacks.ErrorCallback.HandleError | src/main/java/me/theforbiddenai/gamefinder/callback/GameRetrievalErrorCallback.java:9 | each error is recorded, in call order |
| GameFinder.ReadyGames | src/main/java/io/github/theforbiddenai/gamefinder/GameFinder.java:166-169 | the non-null games of the results, in order, never more than there are results |
| GameFinder.PendingFutures | src/main/java/io/github/theforbiddenai/gamefinder/GameFinder.java:170-172 | the non-null futures of the results, in order, never more than there are results |
| GameFinder.ResolvedGames | src/main/java/io/github/theforbiddenai/gamefinder/GameFinder.java:205-208 | the joined games with nulls filtered out, never more than there are futures |
| GameFinder.EnabledIndices | src/main/java/io/github/theforbiddenai/gamefinder/GameFinder.java:59-64 | exactly the scrapers whose platform is enabled, in increasing list order |
| GameFinder.ReadyGamesAppend | src/main/java/io/github/theforbiddenai/gamefinder/GameFinder.java:166-173 | sorting two runs of results one after the other keeps their order |
| GameFinder.PendingFuturesAppend | src/main/java/io/github/theforbiddenai/gamefinder/GameFinder.java:166-173 | the futures of two runs of results, in order |
| GameFinder.ResolvedGamesAppend | src/main/java/io/github/theforbiddenai/gamefinder/GameFinder.java:205-208 | resolving two runs of futures one after the other keeps their order |
| GameFinder.ReadyAndResolvedMembers | src/main/java/io/github/theforbiddenai/gamefinder/GameFinder.java:162-216 | a game is ready iff some result carries it, and resolved iff some future resolves to it |
| GameFinder.SortSingleResult | src/main/java/io/github/theforbiddenai/gamefinder/GameFinder.java:166-173 | a result from either constructor goes to exactly one of the two lists |
| GameFinder.AsyncBatchesNonEmpty | src/main/java/io/github/theforbiddenai/gamefinder/GameFinder.java:143-153 | the async callback never receives an empty batch |
| GameFinder.ScraperBatchesGames | src/main/java/io/github/theforbiddenai/gamefinder/GameFinder.java:109-128 | one scraper's batches hold exactly its ready and its resolved games |
| GameFinder.AsyncDeliversBlockingGames | src/main/java/io/github/theforbiddenai/gamefinder/GameFinder.java:56-135 | when no enabled scraper throws, async mode delivers the same games as the blocking call, as a multiset |
| GameFinder.ReadyGamesComeFirst | src/main/java/io/github/theforbiddenai/gamefinder/GameFinder.java:66-84 | the blocking result starts with every ready game |
| GameFinder.SortScraperResults | src/main/java/io/github/theforbiddenai/gamefinder/GameFinder.java:162-174 | appends the ready games to one list and the futures to the other, in order |
| GameFinder.SendReadyGames | src/main/java/io/github/theforbiddenai/gamefinder/GameFinder.java:143-153 | an empty list sends nothing; otherwise one batch holding a copy of the list, after which the list is empty |
| GameFinder.ResolveFutureGames | src/main/java/io/github/theforbiddenai/gamefinder/GameFinder.java:185-216 | no futures change nothing; otherwise the resolved games are appended and a non-empty list is sent to a non-null callback |
| GameFinder.CollectScraperResults | src/main/java/io/github/theforbiddenai/gamefinder/GameFinder.java:57-64 | only enabled scrapers are invoked, all of them unless one throws, and their results are concatenated in order |
| GameFinder.RetrieveGames | src/main/java/io/github/theforbiddenai/gamefinder/GameFinder.java:56-85 | the ready games followed by the resolved ones, or the first scraper exception; only enabled scrapers are invoked |
| GameFinder.EnabledIndicesPrefix | src/main/java/io/github/theforbiddenai/gamefinder/GameFinder.java:59-64 | the scrapers invoked so far are a prefix of the enabled ones |
| GameFinder.GatherErrSticky | src/main/java/io/github/theforbiddenai/gamefinder/GameFinder.java:59-64 | once a scraper throws, the loop's result is that exception |
| GameFinder.DeliverScraperResults | src/main/java/io/github/theforbiddenai/gamefinder/GameFinder.java:113-124 | one scraper's results reach the callback as its ready batch, then its resolved batch |
| GameFinder.RetrieveGamesAsync | src/main/java/io/github/theforbiddenai/gamefinder/GameFinder.java:95-135 | the callback receives every enabled scraper's ready batch and then its resolved batch, and the error callback every scraper exception; the order across scrapers is the model's (see Left out) |
| LegacyGameFinder.Lift | src/main/java/me/theforbiddenai/gamefinder/GameFinder.java:138-143 | each ready game as a non-null reference, in order |
| LegacyGameFinder.JoinAll | src/main/java/me/theforbiddenai/gamefinder/GameFinder.java:167-169 | what join returns for each future, in order, nulls kept |
| LegacyGameFinder.CompactJoinAll | src/main/java/me/theforbiddenai/gamefinder/GameFinder.java:167-169 | the older join without its nulls is the newer filtered join |
| LegacyGameFinder.LegacyWithoutNullsIsNewer | src/main/java/me/theforbiddenai/gamefinder/GameFinder.java:50-79 | the older blocking call fails iff the newer one does, and without its nulls returns the same list |
| LegacyGameFinder.LegacyNullsComeFromFutures | src/main/java/me/theforbiddenai/gamefinder/GameFinder.java:66-78 | the older blocking result holds a null iff some pending future resolved to null |
| LegacyGameFinder.LegacyAsyncBatchesNonEmpty | src/main/java/me/theforbiddenai/gamefinder/GameFinder.java:106-122 | the older async callback never receives an empty batch |
| LegacyGameFinder.SortScraperResults | src/main/java/me/theforbiddenai/gamefinder/GameFinder.java:134-144 | the same split as the newer tree, in order |
| LegacyGameFinder.ResolveFutureGames | src/main/java/me/theforbiddenai/gamefinder/GameFinder.java:154-175 | every joined value is appended, nulls included, and a non-null callback receives the whole list |
| LegacyGameFinder.RetrieveGames | src/main/java/me/theforbiddenai/gamefinder/GameFinder.java:50-79 | the ready games then every joined value; only enabled scrapers are invoked |
| LegacyGameFinder.DeliverScraperResults | src/main/java/me/theforbiddenai/gamefinder/GameFinder.java:106-122 | a non-empty ready batch, then the resolved batch when there are futures |
| LegacyGameFinder.RetrieveGamesAsync | src/main/java/me/theforbiddenai/gamefinder/GameFinder.java:88-125 | the callback receives every returning scraper's ready batch and then its resolved batch; a throwing scraper adds nothing; the order across scrapers is the model's (see Left out) |
| SteamScraper.FirstFullDiscountEnd | src/main/java/io/github/theforbiddenai/gamefinder/scraper/impl/SteamScraper.java:191-206 | a found end date belongs to a discount whose amount equals the original price; none is found only when no such discount has an end date |
| SteamScraper.DiscountEndDate | src/main/java/io/github/theforbiddenai/gamefinder/scraper/impl/SteamScraper.java:175-210 | the sentinel when the purchase option, its active discounts or its original price is missing |
| SteamScraper.ExtractDiscountEndDate | src/main/java/io/github/theforbiddenai/gamefinder/scraper/impl/SteamScraper.java:175-210 | the guard chain and the discount loop return the end date of the first full discount that has one, else the sentinel |
| SteamScraper.Lookup | src/main/java/io/github/theforbiddenai/gamefinder/scraper/impl/SteamScraper.java:223-225 | a field found has the key asked for; none is found only when no field has it |
| SteamScraper.AssetEntries | src/main/java/io/github/theforbiddenai/gamefinder/scraper/impl/SteamScraper.java:232-252 | every key of the store media map is a field name of the assets node |
| SteamScraper.AssetEntriesMembers | src/main/java/io/github/theforbiddenai/gamefinder/scraper/impl/SteamScraper.java:236-252 | a key is in the map exactly when some string field with a "." has it, and it maps to the CDN URL format with that file name substituted |
| SteamScraper.StoreMedia | src/main/java/io/github/theforbiddenai/gamefinder/scraper/impl/SteamScraper.java:218-228 | no assets node, or a blank asset URL format, gives the empty map |
| SteamScraper.GetStoreMedia | src/main/java/io/github/theforbiddenai/gamefinder/scraper/impl/SteamScraper.java:218-255 | the guards and the field loop build exactly the store media map specified |
| SteamScraper.ScreenshotUrls | src/main/java/io/github/theforbiddenai/gamefinder/scraper/impl/SteamScraper.java:292-308 | at most one URL per screenshot, each the CDN URL followed by a non-blank file name |
| SteamScraper.ScreenshotUrlsMembers | src/main/java/io/github/theforbiddenai/gamefinder/scraper/impl/SteamScraper.java:292-308 | a URL is listed exactly when some screenshot has a non-blank file name and the URL is the CDN URL followed by it |
| SteamScraper.ExtractScreenshots | src/main/java/io/github/theforbiddenai/gamefinder/scraper/impl/SteamScraper.java:292-308 | the loop yields the CDN URL of every screenshot with a non-blank file name, in order |
| SteamScraper.GetScreenshots | src/main/java/io/github/theforbiddenai/gamefinder/scraper/impl/SteamScraper.java:263-284 | all-ages screenshots, then mature ones only when they are allowed |
| SteamScraper.MatureScreenshotsAppended | src/main/java/io/github/theforbiddenai/gamefinder/scraper/impl/SteamScraper.java:270-281 | allowing mature screenshots only appends to the list, and changes nothing when there are none |
| SteamScraper.ResultWithExpirationEpoch | src/main/java/io/github/theforbiddenai/gamefinder/scraper/impl/SteamScraper.java:155-167 | a ready game carrying the epoch exactly when the epoch is not the sentinel, otherwise the unchanged game handed to the web scraper |
| SteamScraper.ListingGame | src/main/java/io/github/theforbiddenai/gamefinder/scraper/impl/SteamScraper.java:119-142 | title, description or "N/A", store URL, DLC flag, platform, store media, screenshots, formatted price or "N/A", and the sentinel epoch |
| SteamScraper.ConvertItem | src/main/java/io/github/theforbiddenai/gamefinder/scraper/impl/SteamScraper.java:93-145 | a result exactly for a free item that is not an excluded DLC; it is ready exactly when the item carries an end date, and carries the listing fields |
| SteamScraper.ExtractId | src/main/java/io/github/theforbiddenai/gamefinder/scraper/impl/SteamScraper.java:374-378 | the id is the text between the first `type/` and the last "/" of the logo URL |
| SteamScraper.ExtractIdBounds | src/main/java/io/github/theforbiddenai/gamefinder/scraper/impl/SteamScraper.java:374-378 | the logo URL splits around the type, the id and its last "/" |
| SteamScraper.IdJsonOrThrow | src/main/java/io/github/theforbiddenai/gamefinder/scraper/impl/SteamScraper.java:345-360 | the id JSON exactly when the substring bounds hold, the out-of-bounds exception otherwise |
| SteamScraper.ConvertGameNodeToJsonOrder | src/main/java/io/github/theforbiddenai/gamefinder/scraper/impl/SteamScraper.java:341-365 | "apps" is checked before "subs" before "bundles"; a logo with none of them gives no id |
| SteamScraper.JoinIds | src/main/java/io/github/theforbiddenai/gamefinder/scraper/impl/SteamScraper.java:316-332 | the StringBuilder loop yields the joined id JSON, or the exception of the first node that throws |
| SteamScraper.JoinIdsSkip | src/main/java/io/github/theforbiddenai/gamefinder/scraper/impl/SteamScraper.java:322-323 | a node without an id adds nothing to the text |
| SteamScraper.JoinIdsAppend | src/main/java/io/github/theforbiddenai/gamefinder/scraper/impl/SteamScraper.java:326-328 | an id is appended, followed by "," when another node follows |
| SteamScraper.JoinIdsFails | src/main/java/io/github/theforbiddenai/gamefinder/scraper/impl/SteamScraper.java:322 | an exception at a node is what the whole walk yields |
| SteamScraper.JoinIdsAllConverted | src/main/java/io/github/theforbiddenai/gamefinder/scraper/impl/SteamScraper.java:316-332 | when every node yields an id the text is exactly the ids joined with "," |
| SteamScraper.JoinIdsTrailingComma | src/main/java/io/github/theforbiddenai/gamefinder/scraper/impl/SteamScraper.java:328 | when only nodes without an id follow the last id, the text ends with "," |
| SteamScraper.JoinIdsNoneYield | src/main/java/io/github/theforbiddenai/gamefinder/scraper/impl/SteamScraper.java:316-332 | nodes that yield no id give the empty text |
| SteamScraper.ResultSetMembers | src/main/java/io/github/theforbiddenai/gamefinder/scraper/impl/SteamScraper.java:74-79 | a result is in the set exactly when some item converts to it |
| SteamScraper.RetrieveResults | src/main/java/io/github/theforbiddenai/gamefinder/scraper/impl/SteamScraper.java:54-85 | the guards and the loop equal the specification: a request that throws IOException is the wrapped "Unable to retrieve games from Steam" error, an empty free game list the "lists" error, an empty GetItems answer no results, else the set of converted items |
| SteamScraper.RetrieveResultsOutcome | src/main/java/io/github/theforbiddenai/gamefinder/scraper/impl/SteamScraper.java:54-85 | an error exactly when a request throws, the free game list is empty or an id cannot be cut; a thrown request gives the wrapped message; every result is the conversion of some returned item |
| LegacySteamScraper.LegacyFirstFullDiscountEnd | src/main/java/me/theforbiddenai/gamefinder/scraper/impl/SteamScraper.java:179-194 | a found end date belongs to a discount whose amount, -1 when missing, equals the original price; none is found only when no such discount has an end date |
| LegacySteamScraper.LegacyDiscountEndDate | src/main/java/me/theforbiddenai/gamefinder/scraper/impl/SteamScraper.java:161-176 | the sentinel when the purchase option, its active discounts or its original price is missing |
| LegacySteamScraper.ExtractDiscountEndDate | src/main/java/me/theforbiddenai/gamefinder/scraper/impl/SteamScraper.java:161-198 | the guard chain and the discount loop return the end date of the first full discount that has one, else the sentinel |
| LegacySteamScraper.FirstFullDiscountEndAgree | src/main/java/me/theforbiddenai/gamefinder/scraper/impl/SteamScraper.java:179-194 | with any price other than -1 the older discount search picks what the newer one picks |
| LegacySteamScraper.DiscountEndDatesAgree | src/main/java/me/theforbiddenai/gamefinder/scraper/impl/SteamScraper.java:161-198 | both trees find the same end date for every item whose original price is not -1 |
| LegacySteamScraper.MissingAmountMatchesSentinelPrice | src/main/java/me/theforbiddenai/gamefinder/scraper/impl/SteamScraper.java:181-192 | with a price of -1, a discount without an amount but with an end date is taken by the older tree and skipped by the newer |
| LegacySteamScraper.GetStoreMedia | src/main/java/me/theforbiddenai/gamefinder/scraper/impl/SteamScraper.java:206-243 | skipping non-string fields before reading them builds the same store media map as the newer tree |
| LegacySteamScraper.LegacyConvertItem | src/main/java/me/theforbiddenai/gamefinder/scraper/impl/SteamScraper.java:86-153 | a result exactly for a free item that is not an excluded DLC; ready exactly when an end date is found; the game is the listing game carrying that epoch |
| LegacySteamScraper.ConvertItemsAgree | src/main/java/me/theforbiddenai/gamefinder/scraper/impl/SteamScraper.java:86-153 | outside the price -1 corner the older conversion is the newer one |
| LegacySteamScraper.ResultListAppend | src/main/java/me/theforbiddenai/gamefinder/scraper/impl/SteamScraper.java:67-72 | the result list of concatenated items is the concatenation of their result lists: nothing merged or reordered |
| LegacySteamScraper.ResultListMembers | src/main/java/me/theforbiddenai/gamefinder/scraper/impl/SteamScraper.java:67-72 | a result is listed exactly when some item converts to it |
| LegacySteamScraper.RetrieveResults | src/main/java/me/theforbiddenai/gamefinder/scraper/impl/SteamScraper.java:47-78 | the guards and the loop equal the specification: a request that throws IOException is the wrapped error, an empty free game list the "lists" error, an empty GetItems answer no results, else the converted items in order |
| LegacySteamScraper.LegacyRetrieveResultsOutcome | src/main/java/me/theforbiddenai/gamefinder/scraper/impl/SteamScraper.java:47-78 | an error exactly when a request throws, the free game list is empty or an id cannot be cut; a thrown request gives the wrapped message; every listed result is the conversion of some returned item |
| EpicGamesScraper.GameUrl | src/main/java/me/theforbiddenai/gamefinder/scraper/impl/EpicGamesScraper.java:203-225 | a present non-blank offer slug (urlSlug for a DLC, productSlug otherwise) gives its listing page; else the first catalog mapping's page slug; else the store root |
| EpicGamesScraper.GameUrlInStore | src/main/java/me/theforbiddenai/gamefinder/scraper/impl/EpicGamesScraper.java:203-238 | every URL is the store root or a listing page under store, language, "-", country, "/p/" |
| EpicGamesScraper.GroupOffersMembers | src/main/java/me/theforbiddenai/gamefinder/scraper/impl/EpicGamesScraper.java:309-318 | an offer is collected exactly when some offer group holding the inner array holds it |
| EpicGamesScraper.AddOffersToList | src/main/java/me/theforbiddenai/gamefinder/scraper/impl/EpicGamesScraper.java:309-318 | the list grows by the inner arrays' offers, group by group, in order |
| EpicGamesScraper.GetAllOfferNodes | src/main/java/me/theforbiddenai/gamefinder/scraper/impl/EpicGamesScraper.java:276-300 | the line offers' applied rules, then the promotional offers |
| EpicGamesScraper.OfferExpiration | src/main/java/me/theforbiddenai/gamefinder/scraper/impl/EpicGamesScraper.java:246-268 | the sentinel or an end epoch after now; an unparsable end date of a 100% offer met first is the DateTimeParseException |
| EpicGamesScraper.OfferExpirationFirstMatch | src/main/java/me/theforbiddenai/gamefinder/scraper/impl/EpicGamesScraper.java:249-267 | with no deciding offer (a 100% offer ending after now, or one whose end date does not parse) the result is the sentinel; otherwise the first deciding offer gives its end epoch or the parse exception |
| EpicGamesScraper.GetOfferExpirationEpoch | src/main/java/me/theforbiddenai/gamefinder/scraper/impl/EpicGamesScraper.java:246-268 | the loop returns the end epoch of the first qualifying offer, else the sentinel, and stops with the parse exception at an unparsable end date before that |
| EpicGamesScraper.FeaturedMedia | src/main/java/me/theforbiddenai/gamefinder/scraper/impl/EpicGamesScraper.java:177-185 | at most one media URL per key image |
| EpicGamesScraper.StoreImagesLastWins | src/main/java/me/theforbiddenai/gamefinder/scraper/impl/EpicGamesScraper.java:177-189 | a type is a store image key exactly when a non-featured image has it, and it maps to the URL of the last such image |
| EpicGamesScraper.FeaturedMediaMembers | src/main/java/me/theforbiddenai/gamefinder/scraper/impl/EpicGamesScraper.java:182-185 | a URL is in the media list exactly when a "featuredMedia" image has it |
| EpicGamesScraper.WithGameMedia | src/main/java/me/theforbiddenai/gamefinder/scraper/impl/EpicGamesScraper.java:169-194 | without key images the builder is untouched; otherwise its store media and media are replaced by the sorted images |
| EpicGamesScraper.SetGameMedia | src/main/java/me/theforbiddenai/gamefinder/scraper/impl/EpicGamesScraper.java:169-194 | the image loop yields exactly the specified store images and media |
| EpicGamesScraper.ElementGame | src/main/java/me/theforbiddenai/gamefinder/scraper/impl/EpicGamesScraper.java:131-161 | null exactly when the discount price is not 0; the parse exception exactly when the price is 0 and the expiration search throws; otherwise a game with title, description, DLC flag from the offer type, platform, URL, formatted price and offer expiration epoch |
| EpicGamesScraper.JsonToGame | src/main/java/me/theforbiddenai/gamefinder/scraper/impl/EpicGamesScraper.java:131-161 | the conversion yields the specified game, null or the parse exception |
| EpicGamesScraper.NewGamesMembers | src/main/java/me/theforbiddenai/gamefinder/scraper/impl/EpicGamesScraper.java:96-121 | when the call does not throw, a game is added exactly when an element whose title was not known at the start of the call converts to it and is not an excluded DLC |
| EpicGamesScraper.NewGamesFails | src/main/java/me/theforbiddenai/gamefinder/scraper/impl/EpicGamesScraper.java:96-121 | a call throws exactly when an element with a new title fails to convert, and then with the parse exception |
| EpicGamesScraper.NewGamesAppend | src/main/java/me/theforbiddenai/gamefinder/scraper/impl/EpicGamesScraper.java:99-103 | titles are checked only against the set taken when the call began, so the additions of concatenated element lists concatenate; an exception in the first list is the result |
| EpicGamesScraper.KnownTitlesSkipped | src/main/java/me/theforbiddenai/gamefinder/scraper/impl/EpicGamesScraper.java:107-108 | no game is added whose title was already collected |
| EpicGamesScraper.ProcessElementsNode | src/main/java/me/theforbiddenai/gamefinder/scraper/impl/EpicGamesScraper.java:96-121 | the result list becomes the old list followed by the accepted games in element order; a conversion that throws is returned, the list only having grown |
| EpicGamesScraper.PageCountFrom | src/main/java/me/theforbiddenai/gamefinder/scraper/impl/EpicGamesScraper.java:61-73 | the do-while loop fetches pages until the next start reaches the page's total, stopping at the first such page |
| EpicGamesScraper.PagedGamesGrow | src/main/java/me/theforbiddenai/gamefinder/scraper/impl/EpicGamesScraper.java:61-73 | each page only appends to the results, and an exception on an earlier page is the result of every later page count |
| EpicGamesScraper.FetchPages | src/main/java/me/theforbiddenai/gamefinder/scraper/impl/EpicGamesScraper.java:55-73 | the do-while loop yields the games of every fetched page, with the k-th request starting after every earlier page's count plus one; a page that throws gives the unwrapped parse exception, running out of responses the wrapped error |
| EpicGamesScraper.RetrieveResults | src/main/java/me/theforbiddenai/gamefinder/scraper/impl/EpicGamesScraper.java:51-87 | the games of every fetched page, then the promotions' games when they are returned; the k-th request starts after every earlier page's count plus one; a failed search or promotions request is the wrapped error, a page that throws the unwrapped parse exception |
| EpicGamesScraper.RetrieveResultsOutcome | src/main/java/me/theforbiddenai/gamefinder/scraper/impl/EpicGamesScraper.java:51-87 | the parse exception when a fetched page throws; the wrapped message exactly when no page throws and a search or promotions request fails; no other error; otherwise the paged games come first, and are all there is when the promotions node is missing |
| GogScraper.ScreenshotUrls | src/main/java/io/github/theforbiddenai/gamefinder/scraper/impl/GOGScraper.java:184-189 | at most one URL per screenshot, none of them blank |
| GogScraper.ScreenshotUrlsMembers | src/main/java/io/github/theforbiddenai/gamefinder/scraper/impl/GOGScraper.java:184-189 | a URL is listed exactly when it is a screenshot with "_{formatter}" removed and is not blank |
| GogScraper.GetScreenshots | src/main/java/io/github/theforbiddenai/gamefinder/scraper/impl/GOGScraper.java:178-192 | the loop yields the specified screenshot URLs, none without a screenshots node |
| GogScraper.Covers | src/main/java/io/github/theforbiddenai/gamefinder/scraper/impl/GOGScraper.java:147-153 | the map holds exactly the covers present, under "coverHorizontal" and "coverVertical" |
| GogScraper.ResultFromJson | src/main/java/io/github/theforbiddenai/gamefinder/scraper/impl/GOGScraper.java:137-170 | null exactly for a "dlc" or "extra" product while DLCs are excluded; otherwise a pending game with title, GOG URL, DLC flag, covers, screenshots and no price, description or epoch |
| GogScraper.GiveawaySectionIds | src/main/java/io/github/theforbiddenai/gamefinder/scraper/impl/GOGScraper.java:103-109 | at most one id per section |
| GogScraper.GiveawaySectionIdsMembers | src/main/java/io/github/theforbiddenai/gamefinder/scraper/impl/GOGScraper.java:103-109 | an id is collected exactly when a section of type GIVEAWAY_SECTION, ignoring case, has it |
| GogScraper.Put | src/main/java/io/github/theforbiddenai/gamefinder/scraper/impl/GOGScraper.java:125 | HashMap.put keeps ids distinct, adds the key, holds the new product and drops only the old entry under its id |
| GogScraper.GiveawayEntries | src/main/java/io/github/theforbiddenai/gamefinder/scraper/impl/GOGScraper.java:111-128 | the giveaway map never holds two entries under one id |
| GogScraper.GiveawayEntriesFetched | src/main/java/io/github/theforbiddenai/gamefinder/scraper/impl/GOGScraper.java:114-126 | every entry is a product some giveaway section returned, and the keys are exactly the ids of those products |
| GogScraper.GetGiveawayNodes | src/main/java/io/github/theforbiddenai/gamefinder/scraper/impl/GOGScraper.java:95-129 | the two loops build exactly the specified giveaway map, empty without home page sections; the home page request or a section request throwing is the wrapped error |
| GogScraper.GiveawayResultsMembers | src/main/java/io/github/theforbiddenai/gamefinder/scraper/impl/GOGScraper.java:63-67 | a giveaway result exists exactly for each giveaway product that converts |
| GogScraper.CatalogResultsMembers | src/main/java/io/github/theforbiddenai/gamefinder/scraper/impl/GOGScraper.java:73-81 | a catalog result exists exactly for each catalog product that is not a giveaway key and converts |
| GogScraper.GiveawayWins | src/main/java/io/github/theforbiddenai/gamefinder/scraper/impl/GOGScraper.java:51-87 | a result comes from a giveaway product or from a catalog product whose id no giveaway has, and every result is pending |
| GogScraper.RetrieveResults | src/main/java/io/github/theforbiddenai/gamefinder/scraper/impl/GOGScraper.java:51-87 | a request that throws is the wrapped error; otherwise nothing when both sources are empty, else the giveaway results, then the catalog results when the catalog was returned |
| GogScraper.RetrieveResultsFails | src/main/java/io/github/theforbiddenai/gamefinder/scraper/impl/GOGScraper.java:51-129 | an error exactly when the catalog request, the home page request or a giveaway section request throws, and then "Unable to retrieve games from GOG" |
| LegacyGogScraper.DLCTestsAgree | src/main/java/me/theforbiddenai/gamefinder/scraper/impl/GOGScraper.java:58-59 | the older equalsIgnoreCase DLC test agrees with the newer lowercase-and-compare test |
| LegacyGogScraper.OriginalPrice | src/main/java/me/theforbiddenai/gamefinder/scraper/impl/GOGScraper.java:61-65 | price.base as text, or "" when it is missing |
| LegacyGogScraper.CatalogGame | src/main/java/me/theforbiddenai/gamefinder/scraper/impl/GOGScraper.java:56-93 | title, cleaned description, store link, DLC flag, base price, both covers, screenshots, GOG platform and the sentinel epoch |
| LegacyGogScraper.ProductTypes | src/main/java/me/theforbiddenai/gamefinder/scraper/impl/GOGScraper.java:181-182 | "game,pack", extended by ",dlc,extras" exactly when DLCs are included |
| LegacyGogScraper.RetrieveResults | src/main/java/me/theforbiddenai/gamefinder/scraper/impl/GOGScraper.java:42-54 | an error exactly when the catalog is missing; otherwise always the empty list |
| GogWebScraper.GetJsonValueCuts | src/main/java/me/theforbiddenai/gamefinder/webscraper/GOGWebScraper.java:253-264 | the value is "" when the prefix is longer than the line, otherwise a prefix of the rest of the line: all of it when it ends with the terminator, nothing when the terminator is absent |
| GogWebScraper.GetJsonValueEndsAtLast | src/main/java/me/theforbiddenai/gamefinder/webscraper/GOGWebScraper.java:257-260 | with a one-character terminator the value is empty or ends with it, and the rest of the line holds no later occurrence |
| GogWebScraper.ReadLineFieldTests | src/main/java/me/theforbiddenai/gamefinder/webscraper/GOGWebScraper.java:216-233 | each line prefix selects its own field name and value terminator; a line with none of them holds no field |
| GogWebScraper.PrefixesExclusive | src/main/java/me/theforbiddenai/gamefinder/webscraper/GOGWebScraper.java:220-233 | no line starts with two of the prefixes, so the order of the three tests does not matter |
| GogWebScraper.JsonFieldOnce | src/main/java/me/theforbiddenai/gamefinder/webscraper/GOGWebScraper.java:216-243 | a field is returned exactly for a named, non-blank, not yet found field, formatted as `"name":value`; its name then joins the found set and nothing else does |
| GogWebScraper.GetJsonField | src/main/java/me/theforbiddenai/gamefinder/webscraper/GOGWebScraper.java:216-243 | returns the specified field and adds its name to the found set |
| GogWebScraper.ScanInvariant | src/main/java/me/theforbiddenai/gamefinder/webscraper/GOGWebScraper.java:89-99 | one spliced field per found name, all of them product card fields, never more than three |
| GogWebScraper.AllFound | src/main/java/me/theforbiddenai/gamefinder/webscraper/GOGWebScraper.java:98-101 | three found names means every product card field was found |
| GogWebScraper.ScanSaturated | src/main/java/me/theforbiddenai/gamefinder/webscraper/GOGWebScraper.java:98 | once all three fields are found, later lines change nothing |
| GogWebScraper.ScanStep | src/main/java/me/theforbiddenai/gamefinder/webscraper/GOGWebScraper.java:90-95 | one loop pass appends the returned field, or leaves the scan unchanged |
| GogWebScraper.ProcessHtmlFindsEveryField | src/main/java/me/theforbiddenai/gamefinder/webscraper/GOGWebScraper.java:101-110 | the page yields an object exactly when all three fields were found, and it is the three fields joined by "," inside braces |
| GogWebScraper.ProcessHTML | src/main/java/me/theforbiddenai/gamefinder/webscraper/GOGWebScraper.java:82-111 | the loop, the break, the completeness check, the dropped comma and the closing brace yield the specified object or the error naming the url |
| GogWebScraper.InsertStoreMediaEntry | src/main/java/me/theforbiddenai/gamefinder/webscraper/GOGWebScraper.java:138-148 | the field's url is put under its name only when the field exists and is not blank |
| GogWebScraper.InsertStoreMediaEntriesMembers | src/main/java/me/theforbiddenai/gamefinder/webscraper/GOGWebScraper.java:75 | a key ends up in the store media exactly when it was there or is a listed field with a non-blank url, which then wins |
| GogWebScraper.ExpirationEpoch | src/main/java/me/theforbiddenai/gamefinder/webscraper/GOGWebScraper.java:156-176 | a missing date or timezone throws from Optional.of; an unreadable date gives the sentinel; otherwise the parsed epoch |
| GogWebScraper.ModifyGameAttributes | src/main/java/me/theforbiddenai/gamefinder/webscraper/GOGWebScraper.java:53-76 | description, expiration epoch and store media from the product card; price unchanged without a base amount, the unsupported-locale text for zero, else formatted; title, url, DLC flag, platform and media untouched |
| GogWebScrape.FieldName | src/main/java/me/theforbiddenai/gamefinder/webscraper/GOGWebScrape.java:69-72 | the first name group that took part, tried in the order prod, cur, promo; none when no group took part |
| GogWebScrape.ScanInvariant | src/main/java/me/theforbiddenai/gamefinder/webscraper/GOGWebScrape.java:63-92 | one spliced entry per found name, all of them product card fields |
| GogWebScrape.MissingValueSkipped | src/main/java/me/theforbiddenai/gamefinder/webscraper/GOGWebScrape.java:80-83 | a match without its value group is skipped and its field can still be found later |
| GogWebScrape.ScanSaturated | src/main/java/me/theforbiddenai/gamefinder/webscraper/GOGWebScrape.java:66 | once every field is found, later matches change nothing |
| GogWebScrape.ProductCardDataFindsEveryField | src/main/java/me/theforbiddenai/gamefinder/webscraper/GOGWebScrape.java:94-103 | the page yields an object exactly when all three fields were found, one entry each, joined by "," inside braces |
| GogWebScrape.GetProductCardData | src/main/java/me/theforbiddenai/gamefinder/webscraper/GOGWebScrape.java:51-106 | the find loop, the completeness check and the closing yield the specified object or the error naming the url |
| GogWebScrape.ModifyGameAttributes | src/main/java/me/theforbiddenai/gamefinder/webscraper/GOGWebScrape.java:38-40 | the game is unchanged; only the missing-data error reaches the caller |
| SteamWebScraper.UpperMeridiem | src/main/java/me/theforbiddenai/gamefinder/webscraper/SteamWebScraper.java:72-74 | a date without "am" or "pm" is unchanged |
| SteamWebScraper.LineVerdictMeaning | src/main/java/me/theforbiddenai/gamefinder/webscraper/SteamWebScraper.java:58-74 | a stripped line without "Free to keep" never decides; one with a date decides with that date upper-cased; one without a date decides (no end date) exactly when it mentions a limited-time promotion |
| SteamWebScraper.FirstDecidingLine | src/main/java/me/theforbiddenai/gamefinder/webscraper/SteamWebScraper.java:57-82 | the index is -1 or a line of the page |
| SteamWebScraper.FirstDecidingLineIsFirst | src/main/java/me/theforbiddenai/gamefinder/webscraper/SteamWebScraper.java:57-82 | the line found decides and no line before it does |
| SteamWebScraper.ScrapeEpochFirstDecidingLine | src/main/java/me/theforbiddenai/gamefinder/webscraper/SteamWebScraper.java:54-86 | the epoch is decided by the first deciding line alone, and is the sentinel when no line decides |
| SteamWebScraper.NoNoticeNoEndDate | src/main/java/me/theforbiddenai/gamefinder/webscraper/SteamWebScrape.java:52-82 | a page without "Free to keep" gives the sentinel; the earlier copy runs the same line scan, its date format and zone conversion being the date parser |
| SteamWebScraper.ScrapeEpochParsed | src/main/java/me/theforbiddenai/gamefinder/webscraper/SteamWebScraper.java:77-85 | every epoch read is the sentinel or one the date parser produced for a line's date |
| SteamWebScraper.ProcessHTML | src/main/java/me/theforbiddenai/gamefinder/webscraper/SteamWebScraper.java:54-86 | the line loop returns what the first deciding line gives, else the sentinel |
| SteamWebScraper.ScrapeGame | src/main/java/me/theforbiddenai/gamefinder/webscraper/SteamWebScraper.java:46-48 | only the expiration epoch of the game changes; a date the formatter rejects is an error |
| SteamPurchaseScrape.FirstFullDiscountIsFirst | src/main/java/me/theforbiddenai/gamefinder/utilities/SteamWebScrape.java:55-59 | the section found is the first with a -100% discount; none is found exactly when no section has one |
| SteamPurchaseScrape.SectionEpoch | src/main/java/me/theforbiddenai/gamefinder/utilities/SteamWebScrape.java:61-77 | the sentinel without a quantity paragraph or without a date in it; an error exactly when the upper-cased date does not parse |
| SteamPurchaseScrape.OnlyFirstFullDiscountSection | src/main/java/me/theforbiddenai/gamefinder/utilities/SteamWebScrape.java:52-78 | only the first full-discount section is read, whatever follows it; a page without one gives the sentinel |
| SteamPurchaseScrape.WebscrapeExpirationEpoch | src/main/java/me/theforbiddenai/gamefinder/utilities/SteamWebScrape.java:26-45 | a request that throws fails the future; a null body leaves the game as it was; otherwise only the expiration epoch changes, to what the page gives; a parse failure fails the future |
| SteamPackageToGame.PackageEpoch | src/main/java/me/theforbiddenai/gamefinder/utilities/SteamPackageToGame.java:36-44 | a positive discount_end_rtime is the answer; a missing, unreadable, zero or negative one gives the sentinel |
| SteamPackageToGame.GetExpirationEpoch | src/main/java/me/theforbiddenai/gamefinder/utilities/SteamPackageToGame.java:20-27 | a request that throws propagates its error; a missing or empty package node gives the sentinel; otherwise only the first element is read; the result is the sentinel or positive |
| SteamAppToGame.SubsSearchAppend | src/main/java/me/theforbiddenai/gamefinder/utilities/SteamAppToGame.java:97-108 | searching concatenated subs finds what the first part finds, or searches on in the second when the first finds nothing |
| SteamAppToGame.GroupsSearchIsFlatSearch | src/main/java/me/theforbiddenai/gamefinder/utilities/SteamAppToGame.java:91-109 | searching group by group, skipping groups without subs, is one search over all subs in order |
| SteamAppToGame.SubsSearchFound | src/main/java/me/theforbiddenai/gamefinder/utilities/SteamAppToGame.java:97-106 | a returned id is that of a zero-priced sub, and every sub before it has a present, non-zero price |
| SteamAppToGame.SubsSearchNone | src/main/java/me/theforbiddenai/gamefinder/utilities/SteamAppToGame.java:97-111 | nothing is found, without error, exactly when every sub has a present non-zero price |
| SteamAppToGame.GetPackageIdWithDiscount | src/main/java/me/theforbiddenai/gamefinder/utilities/SteamAppToGame.java:86-112 | the nested loops return the first zero-priced sub's package id, null when there is none, and throw on a missing price |
| SteamAppToGame.MovieEntriesMembers | src/main/java/me/theforbiddenai/gamefinder/utilities/SteamAppToGame.java:134-149 | a key is in the store media exactly when it was there or names a movie with mp4 and a non-blank name and path; an unnamed key keeps its value |
| SteamAppToGame.MovieEntriesLastWins | src/main/java/me/theforbiddenai/gamefinder/utilities/SteamAppToGame.java:148 | a movie's name maps to the max path of the last kept movie with that name |
| SteamAppToGame.GetAppStoreMedia | src/main/java/me/theforbiddenai/gamefinder/utilities/SteamAppToGame.java:120-152 | the three images, then the movie loop, build exactly the specified map |
| SteamAppToGame.ScreenshotPathsMembers | src/main/java/me/theforbiddenai/gamefinder/utilities/SteamAppToGame.java:166-177 | at most one path per screenshot; a path is listed exactly when some screenshot yields it and it is not blank |
| SteamAppToGame.FullPathPreferred | src/main/java/me/theforbiddenai/gamefinder/utilities/SteamAppToGame.java:168-169 | a present path_full is preferred to the thumbnail |
| SteamAppToGame.GetAppScreenshots | src/main/java/me/theforbiddenai/gamefinder/utilities/SteamAppToGame.java:160-180 | the loop yields exactly the specified screenshot paths |
| SteamAppToGame.ExpirationEpochFor | src/main/java/me/theforbiddenai/gamefinder/utilities/SteamAppToGame.java:67-78 | a null or blank package id gives the sentinel without a request; otherwise the package tier decides; an error exactly when that request throws; any epoch is the sentinel or positive |
| SteamAppToGame.AppUrl | src/main/java/me/theforbiddenai/gamefinder/utilities/SteamAppToGame.java:43 | the store URL, "app/", then the app id |
| SteamAppToGame.AppToGameFields | src/main/java/me/theforbiddenai/gamefinder/utilities/SteamAppToGame.java:32-58 | the app details request throwing propagates; empty for a missing app or an excluded DLC; an error exactly when a request throws or the package search throws; otherwise the game with name, description, app URL, DLC flag, platform, media and an epoch that is the sentinel or positive |
| SteamAppToGame.ConvertAppToGame | src/main/java/me/theforbiddenai/gamefinder/utilities/SteamAppToGame.java:32-58 | the conversion yields the specified game |
| ClanEvents.EndEpoch | src/main/java/me/theforbiddenai/gamefinder/utilities/SteamParseClanEvents.java:46-48 | a readable rtime32_end_time is the end epoch; otherwise the sentinel |
| ClanEvents.CapsuleKind | src/main/java/me/theforbiddenai/gamefinder/utilities/SteamParseClanEvents.java:104-110 | a capsule is an app exactly when its lower-cased type is "game" or "dlc", a package for "sub", a bundle for "bundle" |
| ClanEvents.SortCapsulesAppend | src/main/java/me/theforbiddenai/gamefinder/utilities/SteamParseClanEvents.java:102-111 | sorting concatenated capsules is sorting the second part on top of the first |
| ClanEvents.SortSectionsIsFlatSort | src/main/java/me/theforbiddenai/gamefinder/utilities/SteamParseClanEvents.java:96-112 | section by section, skipping sections without capsules, is one sort over all capsules |
| ClanEvents.SortCapsulesMembers | src/main/java/me/theforbiddenai/gamefinder/utilities/SteamParseClanEvents.java:102-111 | an id is in a set exactly when it was there or some capsule of that kind has it |
| ClanEvents.JsonDataIdsMembers | src/main/java/me/theforbiddenai/gamefinder/utilities/SteamParseClanEvents.java:73-119 | "null" in any case gives no ids; an error exactly when the text cannot be read; otherwise an id is in a set exactly when a capsule of that kind has it |
| ClanEvents.MissingJsonDataNoIds | src/main/java/me/theforbiddenai/gamefinder/utilities/SteamParseClanEvents.java:75-86 | a missing jsondata reads as "null" and gives no ids |
| ClanEvents.ParseJsonData | src/main/java/me/theforbiddenai/gamefinder/utilities/SteamParseClanEvents.java:73-119 | the nested loops yield exactly the specified id sets or the parse error |
| ClanEvents.ParsedErrorStops | src/main/java/me/theforbiddenai/gamefinder/utilities/SteamParseClanEvents.java:44-64 | once an exception is thrown, no later node is read |
| ClanEvents.ParsedEventsAppend | src/main/java/me/theforbiddenai/gamefinder/utilities/SteamParseClanEvents.java:45-63 | parsing concatenated nodes parses the second part after the first unless the first threw |
| ClanEvents.ParsedEventsKept | src/main/java/me/theforbiddenai/gamefinder/utilities/SteamParseClanEvents.java:45-63 | never more events than nodes; with mustHaveEndEpoch every end epoch is positive; every event carries the name and end epoch of some node |
| ClanEvents.MissingEndTimeSkipped | src/main/java/me/theforbiddenai/gamefinder/utilities/SteamParseClanEvents.java:52 | a node without an end time is skipped when an end epoch is required |
| ClanEvents.EventEndTimeIsFirstMatch | src/main/java/me/theforbiddenai/gamefinder/utilities/SteamParseClanEvents.java:127-134 | the answer is the sentinel or the end epoch of the first event holding the id that ends after now; for a non-negative now, the sentinel means no event matches |
| ClanEvents.SecondsNeverAfterMillis | src/main/java/me/theforbiddenai/gamefinder/utilities/SteamParseClanEvents.java:130 | end epochs in seconds compared with milliseconds never match, so such lookups give the sentinel |
| ClanEvents.SteamParseClanEvents.constructor | src/main/java/me/theforbiddenai/gamefinder/utilities/SteamParseClanEvents.java:24-35 | the clan id and the event details are kept, and no events are parsed yet |
| ClanEvents.SteamParseClanEvents.ParseEvents | src/main/java/me/theforbiddenai/gamefinder/utilities/SteamParseClanEvents.java:44-64 | the events list grows by the parsed events, in node order; a jsondata that cannot be read stops the loop with its error |
| ClanEvents.SteamParseClanEvents.GetEventEndTimeByAppId | src/main/java/me/theforbiddenai/gamefinder/utilities/SteamParseClanEvents.java:127-134 | the first event including the app id that ends after now, else the sentinel |
| ClanEvents.SteamParseClanEvents.GetEventEndTimeByPackageId | src/main/java/me/theforbiddenai/gamefinder/utilities/SteamParseClanEvents.java:142-149 | the first event including the package id that ends after now, else the sentinel |
| ClanEvents.SteamParseClanEvents.GetEventEndTimeByBundleId | src/main/java/me/theforbiddenai/gamefinder/utilities/SteamParseClanEvents.java:157-164 | the first event including the bundle id that ends after now, else the sentinel |
| ClanEvents.NewSteamParseClanEvents | src/main/java/me/theforbiddenai/gamefinder/utilities/SteamParseClanEvents.java:24-35 | the request's IOException propagates unwrapped; an error naming the clan id when the event details are missing; otherwise a fresh object with no events |
| ClanEvents.SortCapsuleStep | src/main/java/me/theforbiddenai/gamefinder/utilities/SteamParseClanEvents.java:103-110 | the switch adds the capsule id to the set its lower-cased type selects, and to no set for any other type |
| ClanEvents.SteamParseClanEvents.FindEndTime | src/main/java/me/theforbiddenai/gamefinder/utilities/SteamParseClanEvents.java:128-133 | the loop the three lookups share returns the first matching event's end epoch, else the sentinel |

## Left out

- Concurrency: executors, `CompletableFuture.runAsync`/`supplyAsync`, `allOf`, `exceptionally` and the 10-second `orTimeout` of `WebScraper` are not modelled. A pending result is a future handle with the `Option<Game>` that `join()` yields; futures that fail or time out are out of scope.
- GameFinder.RetrieveGamesAsync: the model runs the scrapers one after another, so batches reach the callback in scraper order. The source sends each scraper's batches from a `thenAccept` on that scraper's own future, so batches of different scrapers arrive in whatever order the futures complete; only each scraper's own "ready batch, then resolved batch" order is promised.
- LegacyGameFinder.RetrieveGamesAsync: the same serialization as the newer orchestrator; across scrapers the batch order is the model's, not the source's.
- HTTP and network I/O: the GraphQL clients, `SteamRequests`, `GOGRequests`, the app and package detail calls and the OkHttp call of `utilities/SteamWebScrape` become parameters (`getItems`, `fetchProduct`, page sequences, response bodies) of type `Response`: an `IOException` is an `Err`, an empty `Optional` is `Ok(None)`. `WebScraper.getHTMLData` is not modelled: the web scrapers start from the page text, and its `WebScrapeException` for a failed connection or a null body fails the future, which the Concurrency line leaves out.
- JSON parsing: Jackson `readTree` is not modelled. Responses are datatypes with `Option` fields, and the GOG product card stops at the assembled JSON text. A required field that the Java reads without a check (an NPE when it is missing) is a plain field, e.g. the `mp4` "max" and "480" entries of a Steam movie.
- java.time: `Instant.parse`, `LocalDateTime.parse`, the America/Los_Angeles zone and `Year.now()` sit inside the `DateParser`/`parseInstant`/`parseEpoch` parameters, which take the current year. The newer and older Steam web scrapers differ only in date format and a same-instant zone shift, so one `SteamWebScraper` model covers both. A parse exception becomes an `Err` whose text belongs to the model. Epic's `Instant.parse` is a partial `parseInstant`: its `DateTimeParseException` is not caught by `retrieveResults` and ends the call unwrapped (`EpicGamesScraper.RetrieveResultsOutcome`).
- Regular expressions: `STEAM_MONTH_DAY_TIME_REGEX` and the GOG product-card patterns are not modelled. "First match in the text" is a `DateFinder` parameter, and the GOG matcher's groups are an input sequence of `CardMatch` values.
- Jsoup: the selectors and the GOG description cleaning are not modelled. The selected purchase sections are an input, and `describe` is a parameter.
- Floating point and locale: `Game.formatPrice`, `originalPrice(int,int)`, the GOG `baseAmount == 0` branch and the currency/locale cookie and URL strings sit inside a `formatPrice` parameter or are not modelled. `getLocaleCookie`, the GraphQL query variables, the `getFreeGamePromotions` URL and the GOG catalog URL are not modelled, except its product-type list (`LegacyGogScraper.ProductTypes`).
- Configuration: the `GameFinderConfiguration` singleton is not modelled. Its flags (enabled platforms, include DLCs, allow mature content, locale) are parameters.
- Clock: `System.currentTimeMillis()` and `Instant.now()` are a `now` parameter.
- Integer widths: Java `int`/`long` overflow is not modelled, and all epochs and prices are unbounded integers.
- Strings: `toLowerCase`, `equalsIgnoreCase` and `isBlank` fold case and detect whitespace only for ASCII.
- Hash collections: `HashSet` and `HashMap` iterate in insertion order in the model. Java gives no order, so only membership and last-write-wins claims are meaningful. The newer Steam result set drops a ready result equal to one already present (`SteamScraper.ResultSetMembers`). The older `ScraperResult` has no `hashCode`, so its sets are lists that keep duplicates.
- Aliasing: `Game` setters and `GameBuilder` methods are value updates. A `Game` shared between a result and a web scraper is not modelled as one object.
- Unused argument: the `appId` argument of the `SteamPackageToGame.getExpirationEpoch` overload is never read by its body, so `SteamPackageToGame.GetExpirationEpoch` has no such parameter.
- Discarded futures: the older `GOGScraper.retrieveResults` starts futures and drops them. The model keeps only what the caller sees, an empty list or an `Err` for a failed catalog request or a missing `products` node (an NPE in the for loop).
- Exceptions as values: a GOG product card without a promotion date or timezone (`Optional.of(null)` throws, so the empty-optional guard after it is dead code) and a Steam sub without `price_in_cents_with_discount` (again `Optional.of(null)`) are `Err` values, not the `-1` sentinel or a skipped entry. A clan-event `jsondata` that is not JSON and one without `sale_sections` (iterating a null node throws) are one `None` answer of the `SectionReader` parameter.
- EpicGamesScraper.RetrieveResults: a search response whose `paging.count` is -1 or less, with the next start still under `paging.total`, makes the source's do-while request pages forever. The model has finitely many responses, so running out of them stands for a failed request and gives the wrapped error instead of non-termination.
- Epic titles: `EpicGamesScraper.ElementGame` takes a node whose title is present, because its only caller skips nodes without one.
- Interfaces, exception classes and tests carry no logic and are not modelled. `GameScraper`/`Scraper` are the per-platform modules.
