/** Wrappers shared by every module, and the constants both package trees declare in
    their GameFinderConstants classes. */
module Common {

  /** A Java reference that may be null, or an Optional. */
  datatype Option<+T> = None | Some(value: T)

  /** The value of a call whose error path throws (GameRetrievalException,
      WebScrapeException, a NullPointerException the caller turns into one, ...). */
  datatype Result<+T> = Ok(value: T) | Err(reason: string)

  /** What a request helper (SteamRequests, GOGRequests, the Epic GraphQL calls, the
      Steam app and package detail calls) gives back: Err when the request throws an
      IOException, Ok(None) when it answers but the JSON path it follows is missing
      (an empty Optional), Ok(Some(data)) otherwise. */
  type Response<T> = Result<Option<T>>

  /** NO_EXPIRATION_EPOCH: the sentinel meaning "no discount end time was found". */
  const NoExpirationEpoch: int := -1

  /** STEAM_STORE_URL (older GameFinderConstants, and both SteamScraper classes). */
  const SteamStoreUrl: string := "https://store.steampowered.com/"

  /** STEAM_CDN_URL of both SteamScraper classes. */
  const SteamCdnUrl: string := "https://cdn.cloudflare.steamstatic.com/"

  /** Appending a batch to a list that already grew: the bookkeeping step of the loops
      that extend a list by a whole batch at a time. */
  lemma AppendAssoc<T>(a: seq<T>, b: seq<T>, c: seq<T>)
    ensures a + (b + c) == a + b + c
  {
  }
}
