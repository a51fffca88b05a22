/** The older orchestrator (me.theforbiddenai tree, GameFinder.java). It gathers and
    sorts scraper results exactly as the newer one does, but keeps the null values of
    resolved futures, always calls a non-null callback after resolving, and has no error
    callback: a scraper that throws in async mode delivers nothing. Lists of games are
    lists of nullable references here, `seq<Option<Game>>`. */
module LegacyGameFinder {
  import opened Common
  import opened Domain
  import opened Callbacks
  import GameFinder

  type GameScraper = GameFinder.GameScraper

  /** Each game as a non-null reference. */
  function Lift(games: seq<Game>): (refs: seq<Option<Game>>)
    ensures |refs| == |games|
    ensures forall i :: 0 <= i < |games| ==> refs[i] == Some(games[i])
  {
    seq(|games|, i requires 0 <= i < |games| => Some(games[i]))
  }

  /** What `join()` returns for each future, in order, nulls kept. */
  function JoinAll(fs: seq<Future>): (refs: seq<Option<Game>>)
    ensures |refs| == |fs|
    ensures forall i :: 0 <= i < |fs| ==> refs[i] == fs[i].value
  {
    seq(|fs|, i requires 0 <= i < |fs| => fs[i].value)
  }

  /** The non-null references, in order. */
  function Compact(refs: seq<Option<Game>>): seq<Game>
  {
    if refs == [] then []
    else Compact(refs[..|refs| - 1]) + (if refs[|refs| - 1].Some? then [refs[|refs| - 1].value] else [])
  }

  /** What the older blocking `retrieveGames` returns: the ready games, then what every
      pending future resolved to, nulls included. */
  function LegacyBlockingGames(scrapers: seq<GameScraper>, enabled: set<Platform>): Result<seq<Option<Game>>>
  {
    match GameFinder.Gather(scrapers, enabled)
    case Err(e) => Err(e)
    case Ok(rs) => Ok(Lift(GameFinder.ReadyGames(rs)) + JoinAll(GameFinder.PendingFutures(rs)))
  }

  /** The batches one returning scraper delivers in async mode: its ready games when
      there are any, then the joined futures (nulls included) when there are any. */
  function LegacyScraperBatches(rs: seq<ScraperResult>): seq<seq<Option<Game>>>
  {
    var ready := GameFinder.ReadyGames(rs);
    var pending := GameFinder.PendingFutures(rs);
    (if ready != [] then [Lift(ready)] else []) + (if pending != [] then [JoinAll(pending)] else [])
  }

  /** Every batch the callback receives in async mode; throwing scrapers add nothing. */
  function LegacyAsyncBatches(scrapers: seq<GameScraper>, enabled: set<Platform>): seq<seq<Option<Game>>>
  {
    if scrapers == [] then []
    else
      var last := scrapers[|scrapers| - 1];
      LegacyAsyncBatches(scrapers[..|scrapers| - 1], enabled)
      + (if last.platform in enabled && last.outcome.Returned? then LegacyScraperBatches(last.outcome.results) else [])
  }

  lemma {:induction false} CompactAppend(a: seq<Option<Game>>, b: seq<Option<Game>>)
    ensures Compact(a + b) == Compact(a) + Compact(b)
    decreases |b|
  {
    if b == [] {
      assert a + b == a;
    } else {
      var b' := b[..|b| - 1];
      assert (a + b)[..|a + b| - 1] == a + b';
      CompactAppend(a, b');
    }
  }

  lemma {:induction false} CompactLift(games: seq<Game>)
    ensures Compact(Lift(games)) == games
    decreases |games|
  {
    if games != [] {
      var init := games[..|games| - 1];
      assert Lift(games)[..|games| - 1] == Lift(init);
      CompactLift(init);
    }
  }

  lemma {:induction false} CompactJoinAll(fs: seq<Future>)
    ensures Compact(JoinAll(fs)) == GameFinder.ResolvedGames(fs)
    decreases |fs|
  {
    if fs != [] {
      var init := fs[..|fs| - 1];
      assert JoinAll(fs)[..|fs| - 1] == JoinAll(init);
      CompactJoinAll(init);
    }
  }

  /** Dropping the nulls from the older blocking result gives exactly the newer one:
      the two trees differ only in the null filter of `resolveFutureGames`. */
  lemma LegacyWithoutNullsIsNewer(scrapers: seq<GameScraper>, enabled: set<Platform>)
    ensures LegacyBlockingGames(scrapers, enabled).Ok? <==> GameFinder.BlockingGames(scrapers, enabled).Ok?
    ensures LegacyBlockingGames(scrapers, enabled).Ok? ==>
              Compact(LegacyBlockingGames(scrapers, enabled).value) == GameFinder.BlockingGames(scrapers, enabled).value
  {
    if GameFinder.Gather(scrapers, enabled).Ok? {
      var rs := GameFinder.Gather(scrapers, enabled).value;
      CompactAppend(Lift(GameFinder.ReadyGames(rs)), JoinAll(GameFinder.PendingFutures(rs)));
      CompactLift(GameFinder.ReadyGames(rs));
      CompactJoinAll(GameFinder.PendingFutures(rs));
    }
  }

  /** The older blocking result holds a null exactly when some pending future resolved
      to null, and it has one entry per ready game and per pending future. */
  lemma LegacyNullsComeFromFutures(scrapers: seq<GameScraper>, enabled: set<Platform>)
    requires GameFinder.Gather(scrapers, enabled).Ok?
    ensures var rs := GameFinder.Gather(scrapers, enabled).value;
            var fs := GameFinder.PendingFutures(rs);
            var out := LegacyBlockingGames(scrapers, enabled).value;
            |out| == |GameFinder.ReadyGames(rs)| + |fs|
            && (None in out <==> exists k :: 0 <= k < |fs| && fs[k].value == None)
  {
    var rs := GameFinder.Gather(scrapers, enabled).value;
    var fs := GameFinder.PendingFutures(rs);
    var ready := Lift(GameFinder.ReadyGames(rs));
    var out := ready + JoinAll(fs);
    if None in out {
      var j :| 0 <= j < |out| && out[j] == None;
      assert j >= |ready|;
      assert fs[j - |ready|].value == None;
    }
    if exists k :: 0 <= k < |fs| && fs[k].value == None {
      var k :| 0 <= k < |fs| && fs[k].value == None;
      assert out[|ready| + k] == None;
    }
  }

  /** The older async callback never receives an empty batch either (though a batch of
      resolved games may hold nulls). */
  lemma {:induction false} LegacyAsyncBatchesNonEmpty(scrapers: seq<GameScraper>, enabled: set<Platform>)
    ensures forall i :: 0 <= i < |LegacyAsyncBatches(scrapers, enabled)| ==> LegacyAsyncBatches(scrapers, enabled)[i] != []
    decreases |scrapers|
  {
    if scrapers != [] {
      LegacyAsyncBatchesNonEmpty(scrapers[..|scrapers| - 1], enabled);
    }
  }

  /** The older `sortScraperResults`: the same split as the newer one, into a list of
      nullable game references. */
  method SortScraperResults(results: seq<ScraperResult>, readyGames: ArrayList<Option<Game>>, futureGames: ArrayList<Future>)
    modifies readyGames, futureGames
    ensures readyGames.items == old(readyGames.items) + Lift(GameFinder.ReadyGames(results))
    ensures futureGames.items == old(futureGames.items) + GameFinder.PendingFutures(results)
  {
    var i := 0;
    while i < |results|
      invariant 0 <= i <= |results|
      invariant readyGames.items == old(readyGames.items) + Lift(GameFinder.ReadyGames(results[..i]))
      invariant futureGames.items == old(futureGames.items) + GameFinder.PendingFutures(results[..i])
    {
      assert results[..i + 1][..i] == results[..i];
      ghost var ready, pending := GameFinder.ReadyGames(results[..i]), GameFinder.PendingFutures(results[..i]);
      var r := results[i];
      if r.game.Some? {
        assert Lift(ready + [r.game.value]) == Lift(ready) + [Some(r.game.value)];
        AppendAssoc(old(readyGames.items), Lift(ready), [Some(r.game.value)]);
        readyGames.Add(Some(r.game.value));
      } else {
        assert ready + [] == ready;
      }
      if r.futureGame.Some? {
        AppendAssoc(old(futureGames.items), pending, [r.futureGame.value]);
        futureGames.Add(r.futureGame.value);
      } else {
        assert pending + [] == pending;
      }
      i := i + 1;
    }
    assert results[..i] == results;
  }

  /** The sequential tail of the older `resolveFutureGames`: every joined value is
      appended, nulls included, in future order, and a non-null callback then receives
      the list, even an empty one. */
  method ResolveFutureGames(results: ArrayList<Option<Game>>, futureGames: seq<Future>, callback: GameCallback?<Option<Game>>)
    modifies results, callback
    ensures results.items == old(results.items) + JoinAll(futureGames)
    ensures callback != null ==> callback.batches == old(callback.batches) + [results.items]
  {
    var i := 0;
    while i < |futureGames|
      invariant 0 <= i <= |futureGames|
      invariant results.items == old(results.items) + JoinAll(futureGames[..i])
      invariant callback != null ==> callback.batches == old(callback.batches)
    {
      assert JoinAll(futureGames[..i + 1]) == JoinAll(futureGames[..i]) + [futureGames[i].value];
      results.Add(futureGames[i].value);
      i := i + 1;
    }
    assert futureGames[..i] == futureGames;
    if callback != null {
      callback.RetrieveGame(results.items);
    }
  }

  /** The older `retrieveGames`: the ready games, then every resolved value, nulls
      included; the pending step is skipped when there are no futures. */
  method RetrieveGames(scrapers: seq<GameScraper>, enabled: set<Platform>)
    returns (r: Result<seq<Option<Game>>>, invoked: seq<nat>)
    ensures forall k :: k in invoked ==> 0 <= k < |scrapers| && scrapers[k].platform in enabled
    ensures r.Ok? ==> invoked == GameFinder.EnabledIndices(scrapers, enabled)
    ensures r == LegacyBlockingGames(scrapers, enabled)
  {
    var gathered;
    gathered, invoked := GameFinder.CollectScraperResults(scrapers, enabled);
    if gathered.Err? {
      return Err(gathered.reason), invoked;
    }
    var readyGames := new ArrayList<Option<Game>>();
    var futureGames := new ArrayList<Future>();
    SortScraperResults(gathered.value, readyGames, futureGames);
    assert readyGames.items == Lift(GameFinder.ReadyGames(gathered.value));
    assert futureGames.items == GameFinder.PendingFutures(gathered.value);
    if futureGames.items == [] {
      assert readyGames.items + JoinAll([]) == readyGames.items;
      return Ok(readyGames.items), invoked;
    }
    ResolveFutureGames(readyGames, futureGames.items, null);
    r := Ok(readyGames.items);
  }

  /** The stage the older `retrieveGamesAsync` chains onto one scraper's results: a
      non-empty ready list is sent as a copy and cleared, then non-empty futures are
      resolved into that list and sent. */
  method DeliverScraperResults(results: seq<ScraperResult>, callback: GameCallback<Option<Game>>)
    modifies callback
    ensures callback.batches == old(callback.batches) + LegacyScraperBatches(results)
  {
    var readyGames := new ArrayList<Option<Game>>();
    var futureGames := new ArrayList<Future>();
    SortScraperResults(results, readyGames, futureGames);
    assert readyGames.items == Lift(GameFinder.ReadyGames(results));
    assert futureGames.items == GameFinder.PendingFutures(results);
    if readyGames.items != [] {
      callback.RetrieveGame(readyGames.items);
      readyGames.Clear();
    }
    if futureGames.items != [] {
      ResolveFutureGames(readyGames, futureGames.items, callback);
      assert readyGames.items == JoinAll(GameFinder.PendingFutures(results));
    }
  }

  /** The older `retrieveGamesAsync`, each stage run as soon as it is registered: for
      every enabled scraper in list order, its results are delivered; a scraper that
      throws fails its future and nothing is delivered for it. */
  method RetrieveGamesAsync(scrapers: seq<GameScraper>, enabled: set<Platform>, callback: GameCallback<Option<Game>>)
    modifies callback
    ensures callback.batches == old(callback.batches) + LegacyAsyncBatches(scrapers, enabled)
  {
    var i := 0;
    while i < |scrapers|
      invariant 0 <= i <= |scrapers|
      invariant callback.batches == old(callback.batches) + LegacyAsyncBatches(scrapers[..i], enabled)
    {
      LegacyAsyncStep(scrapers, i, enabled);
      var s := scrapers[i];
      ghost var batches := callback.batches;
      if s.platform in enabled && s.outcome.Returned? {
        DeliverScraperResults(s.outcome.results, callback);
        assert callback.batches == batches + LegacyScraperBatches(s.outcome.results);
      }
      AppendAssoc(old(callback.batches), LegacyAsyncBatches(scrapers[..i], enabled),
                             if s.platform in enabled && s.outcome.Returned? then LegacyScraperBatches(s.outcome.results) else []);
      i := i + 1;
    }
    assert scrapers[..i] == scrapers;
  }

  lemma LegacyAsyncStep(scrapers: seq<GameScraper>, i: nat, enabled: set<Platform>)
    requires i < |scrapers|
    ensures var s := scrapers[i];
            LegacyAsyncBatches(scrapers[..i + 1], enabled)
            == LegacyAsyncBatches(scrapers[..i], enabled)
               + (if s.platform in enabled && s.outcome.Returned? then LegacyScraperBatches(s.outcome.results) else [])
  {
    assert scrapers[..i + 1][..i] == scrapers[..i];
  }
}
