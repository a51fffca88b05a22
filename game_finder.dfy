/** The newer orchestrator (io.github tree, GameFinder.java): runs the scrapers of the
    enabled platforms, splits their results into ready games and pending futures, and
    hands the games back either as one list or in batches through a callback.
    Futures are already resolved (see Domain.Future), so the stage callbacks that the
    source chains with `thenAccept` run at once, in scraper order. */
module GameFinder {
  import opened Common
  import opened Domain
  import opened Callbacks

  /** What one GameScraper's `retrieveResults` does when it is called: return its
      results, or throw. */
  datatype Outcome = Returned(results: seq<ScraperResult>) | Threw(reason: string)

  datatype GameScraper = GameScraper(platform: Platform, outcome: Outcome)

  // ---------------------------------------------------------------------------
  // Specification functions

  /** The non-null `game` of each result, in result order. */
  function ReadyGames(rs: seq<ScraperResult>): (games: seq<Game>)
    ensures |games| <= |rs|
  {
    if rs == [] then []
    else
      var init := ReadyGames(rs[..|rs| - 1]);
      var last := rs[|rs| - 1];
      init + (if last.game.Some? then [last.game.value] else [])
  }

  /** The non-null `futureGame` of each result, in result order. */
  function PendingFutures(rs: seq<ScraperResult>): (fs: seq<Future>)
    ensures |fs| <= |rs|
  {
    if rs == [] then []
    else
      var init := PendingFutures(rs[..|rs| - 1]);
      var last := rs[|rs| - 1];
      init + (if last.futureGame.Some? then [last.futureGame.value] else [])
  }

  /** The games the futures resolve to, in future order, nulls dropped. */
  function ResolvedGames(fs: seq<Future>): (games: seq<Game>)
    ensures |games| <= |fs|
  {
    if fs == [] then []
    else
      var init := ResolvedGames(fs[..|fs| - 1]);
      var last := fs[|fs| - 1];
      init + (if last.value.Some? then [last.value.value] else [])
  }

  /** The indices of the scrapers whose platform is enabled, in list order. */
  function EnabledIndices(scrapers: seq<GameScraper>, enabled: set<Platform>): (ix: seq<nat>)
    ensures forall k :: k in ix <==> 0 <= k < |scrapers| && scrapers[k].platform in enabled
    ensures forall a, b :: 0 <= a < b < |ix| ==> ix[a] < ix[b]
  {
    if scrapers == [] then []
    else
      var n := |scrapers| - 1;
      var init := EnabledIndices(scrapers[..n], enabled);
      assert forall k :: 0 <= k < n ==> scrapers[..n][k] == scrapers[k];
      assert forall a :: 0 <= a < |init| ==> init[a] in init && init[a] < n;
      init + (if scrapers[n].platform in enabled then [n] else [])
  }

  /** The results of every enabled scraper, concatenated in scraper order, or the
      exception of the first enabled scraper that throws. */
  function Gather(scrapers: seq<GameScraper>, enabled: set<Platform>): Result<seq<ScraperResult>>
  {
    if scrapers == [] then Ok([])
    else
      var last := scrapers[|scrapers| - 1];
      match Gather(scrapers[..|scrapers| - 1], enabled)
      case Err(e) => Err(e)
      case Ok(rs) =>
        if last.platform !in enabled then Ok(rs)
        else match last.outcome
          case Threw(e) => Err(e)
          case Returned(more) => Ok(rs + more)
  }

  /** What the blocking `retrieveGames` returns: every ready game, then every pending
      game that resolved to non-null. */
  function BlockingGames(scrapers: seq<GameScraper>, enabled: set<Platform>): Result<seq<Game>>
  {
    match Gather(scrapers, enabled)
    case Err(e) => Err(e)
    case Ok(rs) => Ok(ReadyGames(rs) + ResolvedGames(PendingFutures(rs)))
  }

  /** The batches one returning scraper delivers in async mode: its ready games, then
      its resolved pending games, each only when non-empty. */
  function ScraperBatches(rs: seq<ScraperResult>): seq<seq<Game>>
  {
    var ready := ReadyGames(rs);
    var resolved := ResolvedGames(PendingFutures(rs));
    (if ready != [] then [ready] else [])
    + (if PendingFutures(rs) != [] && resolved != [] then [resolved] else [])
  }

  /** Every batch the callback receives in async mode, scraper by scraper. */
  function AsyncBatches(scrapers: seq<GameScraper>, enabled: set<Platform>): seq<seq<Game>>
  {
    if scrapers == [] then []
    else
      var last := scrapers[|scrapers| - 1];
      AsyncBatches(scrapers[..|scrapers| - 1], enabled)
      + (if last.platform in enabled && last.outcome.Returned? then ScraperBatches(last.outcome.results) else [])
  }

  /** Every exception the error callback receives in async mode. */
  function AsyncErrors(scrapers: seq<GameScraper>, enabled: set<Platform>): seq<string>
  {
    if scrapers == [] then []
    else
      var last := scrapers[|scrapers| - 1];
      AsyncErrors(scrapers[..|scrapers| - 1], enabled)
      + (if last.platform in enabled && last.outcome.Threw? then [last.outcome.reason] else [])
  }

  function Flatten<T>(batches: seq<seq<T>>): seq<T>
  {
    if batches == [] then [] else Flatten(batches[..|batches| - 1]) + batches[|batches| - 1]
  }

  // ---------------------------------------------------------------------------
  // Lemmas

  lemma {:induction false} ReadyGamesAppend(a: seq<ScraperResult>, b: seq<ScraperResult>)
    ensures ReadyGames(a + b) == ReadyGames(a) + ReadyGames(b)
    decreases |b|
  {
    if b == [] {
      assert a + b == a;
    } else {
      var b' := b[..|b| - 1];
      assert (a + b)[..|a + b| - 1] == a + b';
      ReadyGamesAppend(a, b');
    }
  }

  lemma {:induction false} PendingFuturesAppend(a: seq<ScraperResult>, b: seq<ScraperResult>)
    ensures PendingFutures(a + b) == PendingFutures(a) + PendingFutures(b)
    decreases |b|
  {
    if b == [] {
      assert a + b == a;
    } else {
      var b' := b[..|b| - 1];
      assert (a + b)[..|a + b| - 1] == a + b';
      PendingFuturesAppend(a, b');
    }
  }

  lemma {:induction false} ResolvedGamesAppend(a: seq<Future>, b: seq<Future>)
    ensures ResolvedGames(a + b) == ResolvedGames(a) + ResolvedGames(b)
    decreases |b|
  {
    if b == [] {
      assert a + b == a;
    } else {
      var b' := b[..|b| - 1];
      assert (a + b)[..|a + b| - 1] == a + b';
      ResolvedGamesAppend(a, b');
    }
  }

  /** A game is ready exactly when some result carries it, and pending games resolve to
      exactly the non-null values of the futures. */
  lemma {:induction false} ReadyAndResolvedMembers(rs: seq<ScraperResult>, fs: seq<Future>, g: Game)
    ensures g in ReadyGames(rs) <==> exists k :: 0 <= k < |rs| && rs[k].game == Some(g)
    ensures g in ResolvedGames(fs) <==> exists k :: 0 <= k < |fs| && fs[k].value == Some(g)
    decreases |rs| + |fs|
  {
    if rs != [] {
      var init := rs[..|rs| - 1];
      ReadyAndResolvedMembers(init, [], g);
      assert forall k :: 0 <= k < |init| ==> init[k] == rs[k];
    }
    if fs != [] {
      var init := fs[..|fs| - 1];
      ReadyAndResolvedMembers([], init, g);
      assert forall k :: 0 <= k < |init| ==> init[k] == fs[k];
    }
  }

  /** A result built by one of the two constructors goes to exactly one list. */
  lemma SortSingleResult(g: Game, f: Future)
    ensures ReadyGames([ReadyResult(g)]) == [g] && PendingFutures([ReadyResult(g)]) == []
    ensures ReadyGames([PendingResult(f)]) == [] && PendingFutures([PendingResult(f)]) == [f]
  {
    assert [ReadyResult(g)][..0] == [];
    assert [PendingResult(f)][..0] == [];
  }

  /** The callback never receives an empty batch. */
  lemma {:induction false} AsyncBatchesNonEmpty(scrapers: seq<GameScraper>, enabled: set<Platform>)
    ensures forall i :: 0 <= i < |AsyncBatches(scrapers, enabled)| ==> AsyncBatches(scrapers, enabled)[i] != []
    decreases |scrapers|
  {
    if scrapers != [] {
      AsyncBatchesNonEmpty(scrapers[..|scrapers| - 1], enabled);
    }
  }

  lemma {:induction false} FlattenAppend<T>(a: seq<seq<T>>, b: seq<seq<T>>)
    ensures Flatten(a + b) == Flatten(a) + Flatten(b)
    decreases |b|
  {
    if b == [] {
      assert a + b == a;
    } else {
      var b' := b[..|b| - 1];
      assert (a + b)[..|a + b| - 1] == a + b';
      assert (a + b)[|a + b| - 1] == b[|b| - 1];
      FlattenAppend(a, b');
      AppendAssoc(Flatten(a), Flatten(b'), b[|b| - 1]);
    }
  }

  /** One scraper's async batches hold its ready and its resolved games. */
  lemma ScraperBatchesGames(rs: seq<ScraperResult>)
    ensures multiset(Flatten(ScraperBatches(rs)))
         == multiset(ReadyGames(rs)) + multiset(ResolvedGames(PendingFutures(rs)))
  {
    var ready := ReadyGames(rs);
    var resolved := ResolvedGames(PendingFutures(rs));
    var a := if ready != [] then [ready] else [];
    var b := if PendingFutures(rs) != [] && resolved != [] then [resolved] else [];
    assert ScraperBatches(rs) == a + b;
    FlattenAppend(a, b);
    if a != [] { assert Flatten(a) == Flatten(a[..0]) + ready; }
    if b != [] { assert Flatten(b) == Flatten(b[..0]) + resolved; }
    if PendingFutures(rs) == [] { assert resolved == []; }
  }

  /** When no enabled scraper throws, the async batches carry the same games, with the
      same multiplicities, as the blocking call returns; only the order differs (ready
      and resolved games interleave scraper by scraper). */
  lemma {:induction false} AsyncDeliversBlockingGames(scrapers: seq<GameScraper>, enabled: set<Platform>)
    requires Gather(scrapers, enabled).Ok?
    ensures BlockingGames(scrapers, enabled).Ok?
    ensures multiset(Flatten(AsyncBatches(scrapers, enabled))) == multiset(BlockingGames(scrapers, enabled).value)
    decreases |scrapers|
  {
    if scrapers == [] {
      return;
    }
    var init := scrapers[..|scrapers| - 1];
    var last := scrapers[|scrapers| - 1];
    AsyncDeliversBlockingGames(init, enabled);
    var rs := Gather(init, enabled).value;
    var extra := if last.platform in enabled && last.outcome.Returned? then ScraperBatches(last.outcome.results) else [];
    assert AsyncBatches(scrapers, enabled) == AsyncBatches(init, enabled) + extra;
    FlattenAppend(AsyncBatches(init, enabled), extra);
    if last.platform in enabled && last.outcome.Returned? {
      var more := last.outcome.results;
      assert Gather(scrapers, enabled) == Ok(rs + more);
      ReadyGamesAppend(rs, more);
      PendingFuturesAppend(rs, more);
      ResolvedGamesAppend(PendingFutures(rs), PendingFutures(more));
      ScraperBatchesGames(more);
    } else {
      assert Gather(scrapers, enabled) == Ok(rs);
      assert Flatten(extra) == [];
    }
  }

  /** Whatever the scrapers return, the blocking call lists the ready games first. */
  lemma ReadyGamesComeFirst(scrapers: seq<GameScraper>, enabled: set<Platform>)
    requires Gather(scrapers, enabled).Ok?
    ensures ReadyGames(Gather(scrapers, enabled).value) <= BlockingGames(scrapers, enabled).value
  {
  }

  // ---------------------------------------------------------------------------
  // Methods

  /** `sortScraperResults`: appends each result's game to `readyGames` and its future
      to `futureGames`, keeping input order and what the lists already held. */
  method SortScraperResults(results: seq<ScraperResult>, readyGames: ArrayList<Game>, futureGames: ArrayList<Future>)
    modifies readyGames, futureGames
    ensures readyGames.items == old(readyGames.items) + ReadyGames(results)
    ensures futureGames.items == old(futureGames.items) + PendingFutures(results)
  {
    var i := 0;
    while i < |results|
      invariant 0 <= i <= |results|
      invariant readyGames.items == old(readyGames.items) + ReadyGames(results[..i])
      invariant futureGames.items == old(futureGames.items) + PendingFutures(results[..i])
    {
      assert results[..i + 1][..i] == results[..i];
      ghost var ready, pending := ReadyGames(results[..i]), PendingFutures(results[..i]);
      var r := results[i];
      if r.game.Some? {
        AppendAssoc(old(readyGames.items), ready, [r.game.value]);
        readyGames.Add(r.game.value);
      } else {
        assert ready + [] == ready;
      }
      if r.futureGame.Some? {
        AppendAssoc(old(futureGames.items), pending, [r.futureGame.value]);
        futureGames.Add(r.futureGame.value);
      } else {
        assert pending + [] == pending;
      }
      i := i + 1;
    }
    assert results[..i] == results;
  }

  /** `sendReadyGames`: nothing on an empty list; otherwise the callback receives a copy
      of the list, which is then cleared. */
  method SendReadyGames(readyGames: ArrayList<Game>, callback: GameCallback<Game>)
    modifies readyGames, callback
    ensures readyGames.items == []
    ensures old(readyGames.items) == [] ==> callback.batches == old(callback.batches)
    ensures old(readyGames.items) != [] ==> callback.batches == old(callback.batches) + [old(readyGames.items)]
  {
    if readyGames.items == [] {
      return;
    }
    var copy := readyGames.items;
    callback.RetrieveGame(copy);
    readyGames.Clear();
  }

  /** The sequential tail of `resolveFutureGames`: with no futures nothing happens;
      otherwise the non-null resolved games are appended in future order, and a
      non-null callback then receives the list if it is non-empty. */
  method ResolveFutureGames(resultsList: ArrayList<Game>, futureGames: seq<Future>, callback: GameCallback?<Game>)
    modifies resultsList, callback
    ensures futureGames == [] ==> resultsList.items == old(resultsList.items)
    ensures futureGames != [] ==> resultsList.items == old(resultsList.items) + ResolvedGames(futureGames)
    ensures callback != null ==>
              callback.batches == old(callback.batches)
                                  + (if futureGames != [] && resultsList.items != [] then [resultsList.items] else [])
  {
    if |futureGames| == 0 {
      return;
    }
    var i := 0;
    while i < |futureGames|
      invariant 0 <= i <= |futureGames|
      invariant resultsList.items == old(resultsList.items) + ResolvedGames(futureGames[..i])
      invariant callback != null ==> callback.batches == old(callback.batches)
    {
      assert futureGames[..i + 1][..i] == futureGames[..i];
      var resolved := futureGames[i].value;
      if resolved.Some? {
        resultsList.Add(resolved.value);
      }
      i := i + 1;
    }
    assert futureGames[..i] == futureGames;
    if callback != null && resultsList.items != [] {
      callback.RetrieveGame(resultsList.items);
    }
  }

  /** The loop at the head of `retrieveGames`: calls `retrieveResults` on the enabled
      scrapers only, in list order (`invoked` lists their indices), and collects what
      they return; an exception from a scraper propagates at once. */
  method CollectScraperResults(scrapers: seq<GameScraper>, enabled: set<Platform>)
    returns (r: Result<seq<ScraperResult>>, invoked: seq<nat>)
    ensures forall k :: k in invoked ==> 0 <= k < |scrapers| && scrapers[k].platform in enabled
    ensures invoked <= EnabledIndices(scrapers, enabled)
    ensures r.Ok? ==> invoked == EnabledIndices(scrapers, enabled)
    ensures r == Gather(scrapers, enabled)
  {
    var scraperResults: seq<ScraperResult> := [];
    invoked := [];
    var i := 0;
    while i < |scrapers|
      invariant 0 <= i <= |scrapers|
      invariant Gather(scrapers[..i], enabled) == Ok(scraperResults)
      invariant invoked == EnabledIndices(scrapers[..i], enabled)
    {
      CollectStep(scrapers, enabled, i);
      var s := scrapers[i];
      if s.platform in enabled {
        invoked := invoked + [i];
        if s.outcome.Threw? {
          GatherErrSticky(scrapers, enabled, i + 1);
          EnabledIndicesPrefix(scrapers, enabled, i + 1);
          return Err(s.outcome.reason), invoked;
        }
        scraperResults := scraperResults + s.outcome.results;
      }
      i := i + 1;
    }
    assert scrapers[..i] == scrapers;
    r := Ok(scraperResults);
  }

  lemma CollectStep(scrapers: seq<GameScraper>, enabled: set<Platform>, i: nat)
    requires i < |scrapers|
    ensures EnabledIndices(scrapers[..i + 1], enabled)
            == EnabledIndices(scrapers[..i], enabled) + if scrapers[i].platform in enabled then [i] else []
    ensures Gather(scrapers[..i + 1], enabled)
            == match Gather(scrapers[..i], enabled)
               case Err(e) => Err(e)
               case Ok(rs) =>
                 if scrapers[i].platform !in enabled then Ok(rs)
                 else match scrapers[i].outcome
                   case Threw(e) => Err(e)
                   case Returned(more) => Ok(rs + more)
  {
    assert scrapers[..i + 1][..i] == scrapers[..i];
  }

  /** `retrieveGames`: the ready games of the enabled scrapers followed by their
      non-null resolved pending games, or the first scraper exception. With no pending
      futures the ready list is returned as it is. */
  method RetrieveGames(scrapers: seq<GameScraper>, enabled: set<Platform>)
    returns (r: Result<seq<Game>>, invoked: seq<nat>)
    ensures forall k :: k in invoked ==> 0 <= k < |scrapers| && scrapers[k].platform in enabled
    ensures r.Ok? ==> invoked == EnabledIndices(scrapers, enabled)
    ensures r == BlockingGames(scrapers, enabled)
  {
    var gathered;
    gathered, invoked := CollectScraperResults(scrapers, enabled);
    if gathered.Err? {
      return Err(gathered.reason), invoked;
    }
    var readyGameList := new ArrayList<Game>();
    var futureGameList := new ArrayList<Future>();
    SortScraperResults(gathered.value, readyGameList, futureGameList);
    assert readyGameList.items == ReadyGames(gathered.value);
    assert futureGameList.items == PendingFutures(gathered.value);
    if futureGameList.items == [] {
      assert BlockingGames(scrapers, enabled) == Ok(ReadyGames(gathered.value) + []);
      assert ReadyGames(gathered.value) + [] == ReadyGames(gathered.value);
      return Ok(readyGameList.items), invoked;
    }
    ResolveFutureGames(readyGameList, futureGameList.items, null);
    r := Ok(readyGameList.items);
  }

  /** The scrapers invoked before any point are a prefix of all enabled ones. */
  lemma {:induction false} EnabledIndicesPrefix(scrapers: seq<GameScraper>, enabled: set<Platform>, i: nat)
    requires i <= |scrapers|
    ensures EnabledIndices(scrapers[..i], enabled) <= EnabledIndices(scrapers, enabled)
    decreases |scrapers| - i
  {
    if i < |scrapers| {
      assert scrapers[..i + 1][..i] == scrapers[..i];
      EnabledIndicesPrefix(scrapers, enabled, i + 1);
    } else {
      assert scrapers[..i] == scrapers;
    }
  }

  /** Once a prefix has thrown, every longer prefix has too. */
  lemma {:induction false} GatherErrSticky(scrapers: seq<GameScraper>, enabled: set<Platform>, i: nat)
    requires i <= |scrapers|
    requires Gather(scrapers[..i], enabled).Err?
    ensures Gather(scrapers, enabled) == Gather(scrapers[..i], enabled)
    decreases |scrapers| - i
  {
    if i < |scrapers| {
      assert scrapers[..i + 1][..i] == scrapers[..i];
      GatherErrSticky(scrapers, enabled, i + 1);
    } else {
      assert scrapers[..i] == scrapers;
    }
  }

  /** The stage `retrieveGamesAsync` chains onto one scraper's non-null results: sort
      them, send the ready games, then resolve the pending ones into the emptied list. */
  method DeliverScraperResults(results: seq<ScraperResult>, callback: GameCallback<Game>)
    modifies callback
    ensures callback.batches == old(callback.batches) + ScraperBatches(results)
  {
    var readyGamesList := new ArrayList<Game>();
    var futureGamesList := new ArrayList<Future>();
    SortScraperResults(results, readyGamesList, futureGamesList);
    assert readyGamesList.items == ReadyGames(results);
    assert futureGamesList.items == PendingFutures(results);
    SendReadyGames(readyGamesList, callback);
    ResolveFutureGames(readyGamesList, futureGamesList.items, callback);
    assert PendingFutures(results) != [] ==> readyGamesList.items == ResolvedGames(PendingFutures(results));
  }

  /** `retrieveGamesAsync`, with each stage run as soon as it is registered: for every
      enabled scraper in list order, an exception goes to the error callback and delivers
      nothing; otherwise the ready games are sent, then the resolved pending games. */
  method RetrieveGamesAsync(scrapers: seq<GameScraper>, enabled: set<Platform>,
                            callback: GameCallback<Game>, errorCallback: ErrorCallback)
    modifies callback, errorCallback
    ensures callback.batches == old(callback.batches) + AsyncBatches(scrapers, enabled)
    ensures errorCallback.errors == old(errorCallback.errors) + AsyncErrors(scrapers, enabled)
  {
    var i := 0;
    while i < |scrapers|
      invariant 0 <= i <= |scrapers|
      invariant callback.batches == old(callback.batches) + AsyncBatches(scrapers[..i], enabled)
      invariant errorCallback.errors == old(errorCallback.errors) + AsyncErrors(scrapers[..i], enabled)
    {
      AsyncStep(scrapers, i, enabled);
      var s := scrapers[i];
      ghost var batches, errors := callback.batches, errorCallback.errors;
      if s.platform in enabled {
        match s.outcome
        case Threw(e) =>
          errorCallback.HandleError(e);
        case Returned(results) =>
          DeliverScraperResults(results, callback);
          assert callback.batches == batches + ScraperBatches(results);
      }
      AppendAssoc(old(callback.batches), AsyncBatches(scrapers[..i], enabled),
                  if s.platform in enabled && s.outcome.Returned? then ScraperBatches(s.outcome.results) else []);
      AppendAssoc(old(errorCallback.errors), AsyncErrors(scrapers[..i], enabled),
                  if s.platform in enabled && s.outcome.Threw? then [s.outcome.reason] else []);
      i := i + 1;
    }
    assert scrapers[..i] == scrapers;
  }

  lemma AsyncStep(scrapers: seq<GameScraper>, i: nat, enabled: set<Platform>)
    requires i < |scrapers|
    ensures var s := scrapers[i];
            AsyncBatches(scrapers[..i + 1], enabled)
            == AsyncBatches(scrapers[..i], enabled)
               + (if s.platform in enabled && s.outcome.Returned? then ScraperBatches(s.outcome.results) else [])
    ensures var s := scrapers[i];
            AsyncErrors(scrapers[..i + 1], enabled)
            == AsyncErrors(scrapers[..i], enabled)
               + (if s.platform in enabled && s.outcome.Threw? then [s.outcome.reason] else [])
  {
    assert scrapers[..i + 1][..i] == scrapers[..i];
  }
}
