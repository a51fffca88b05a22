/** SteamAppToGame (me.theforbiddenai tree): builds a Game from a Steam app details
    node. The app details and package details requests are parameters; their JSON
    answers are the datatypes below. A field read without a null check is a plain
    field; a field the code checks for null is an Option. */
module SteamAppToGame {
  import opened Common
  import opened Strings
  import opened Domain
  import SteamPackageToGame

  /** A buying option. `priceInCentsWithDiscount` is None when the field is missing:
      `Optional.of` then throws, so the fallback to -1 is never reached. */
  datatype Sub = Sub(priceInCentsWithDiscount: Option<int>, packageId: string)

  /** A package group; `subs` is None when the group has no `subs` node. */
  datatype PackageGroup = PackageGroup(subs: Option<seq<Sub>>)

  /** The `mp4` node of a movie. Both `max` and `480` are read, because `orElse`
      evaluates its argument first; `asText` never gives null, so `max` is the path. */
  datatype Mp4 = Mp4(max: string, p480: string)

  datatype Movie = Movie(mp4: Option<Mp4>, name: string)

  /** A screenshot: its `path_full` and `path_thumbnail`, each None when absent. */
  datatype Screenshot = Screenshot(pathFull: Option<string>, pathThumbnail: Option<string>)

  /** The app details node. */
  datatype AppNode = AppNode(
    appType: string,
    name: string,
    shortDescription: string,
    headerImage: string,
    capsuleImage: string,
    capsuleImagev5: string,
    movies: Option<seq<Movie>>,
    screenshots: Option<seq<Screenshot>>,
    packageGroups: Option<seq<PackageGroup>>)

  const MissingPriceError := "NullPointerException: price_in_cents_with_discount"

  // ---------------------------------------------------------------------------
  // getPackageIdWithDiscount

  /** The inner loop: the first sub whose price is missing (which throws) or zero
      (whose id is returned) decides; Ok(None) when no sub decides. */
  function SubsSearch(subs: seq<Sub>): Result<Option<string>>
    decreases |subs|
  {
    if subs == [] then Ok(None)
    else
      match subs[0].priceInCentsWithDiscount
      case None => Err(MissingPriceError)
      case Some(price) => if price == 0 then Ok(Some(subs[0].packageId)) else SubsSearch(subs[1..])
  }

  /** The outer loop: groups without subs are skipped; the first group whose subs
      decide gives the answer. */
  function GroupsSearch(groups: seq<PackageGroup>): Result<Option<string>>
    decreases |groups|
  {
    if groups == [] then Ok(None)
    else
      var here := match groups[0].subs case None => Ok(None) case Some(subs) => SubsSearch(subs);
      if here == Ok(None) then GroupsSearch(groups[1..]) else here
  }

  /** `getPackageIdWithDiscount`: null without `package_groups`. */
  function PackageIdWithDiscount(app: AppNode): Result<Option<string>> {
    match app.packageGroups case None => Ok(None) case Some(groups) => GroupsSearch(groups)
  }

  /** Every sub of every group that has subs, groups first and subs within them in
      order. */
  function AllSubs(groups: seq<PackageGroup>): seq<Sub>
    decreases |groups|
  {
    if groups == [] then []
    else (match groups[0].subs case None => [] case Some(subs) => subs) + AllSubs(groups[1..])
  }

  lemma {:induction false} SubsSearchAppend(a: seq<Sub>, b: seq<Sub>)
    ensures SubsSearch(a + b) == if SubsSearch(a) == Ok(None) then SubsSearch(b) else SubsSearch(a)
    decreases |a|
  {
    if a != [] {
      SubsSearchAppend(a[1..], b);
      assert (a + b)[1..] == a[1..] + b;
    } else {
      assert a + b == b;
    }
  }

  /** The nested loops search the subs of all groups as one list, in order. */
  lemma {:induction false} GroupsSearchIsFlatSearch(groups: seq<PackageGroup>)
    ensures GroupsSearch(groups) == SubsSearch(AllSubs(groups))
    decreases |groups|
  {
    if groups != [] {
      GroupsSearchIsFlatSearch(groups[1..]);
      var first := match groups[0].subs case None => [] case Some(subs) => subs;
      SubsSearchAppend(first, AllSubs(groups[1..]));
    }
  }

  /** A returned id is that of a zero-priced sub, every sub before which has a price
      and a non-zero one. */
  lemma {:induction false} SubsSearchFound(subs: seq<Sub>)
    ensures SubsSearch(subs).Ok? && SubsSearch(subs).value.Some?
      ==> exists k :: 0 <= k < |subs| && subs[k].priceInCentsWithDiscount == Some(0)
                      && subs[k].packageId == SubsSearch(subs).value.value
                      && forall j :: 0 <= j < k ==> subs[j].priceInCentsWithDiscount.Some?
                                                    && subs[j].priceInCentsWithDiscount.value != 0
    decreases |subs|
  {
    if subs != [] && subs[0].priceInCentsWithDiscount.Some? && subs[0].priceInCentsWithDiscount.value != 0 {
      SubsSearchFound(subs[1..]);
      var tail := subs[1..];
      if SubsSearch(tail).Ok? && SubsSearch(tail).value.Some? {
        var k :| 0 <= k < |tail| && tail[k].priceInCentsWithDiscount == Some(0)
                 && tail[k].packageId == SubsSearch(tail).value.value
                 && forall j :: 0 <= j < k ==> tail[j].priceInCentsWithDiscount.Some?
                                               && tail[j].priceInCentsWithDiscount.value != 0;
        assert subs[k + 1] == tail[k];
        assert forall j :: 1 <= j < k + 1 ==> subs[j] == tail[j - 1];
      }
    }
  }

  /** Nothing is found, without error, exactly when every sub has a non-zero price. */
  lemma {:induction false} SubsSearchNone(subs: seq<Sub>)
    ensures SubsSearch(subs) == Ok(None)
      <==> forall j :: 0 <= j < |subs| ==> subs[j].priceInCentsWithDiscount.Some?
                                           && subs[j].priceInCentsWithDiscount.value != 0
    decreases |subs|
  {
    if subs != [] {
      SubsSearchNone(subs[1..]);
      assert forall j :: 1 <= j < |subs| ==> subs[j] == subs[1..][j - 1];
    }
  }

  /** `getPackageIdWithDiscount`: a nested search loop with early return. */
  method GetPackageIdWithDiscount(app: AppNode) returns (r: Result<Option<string>>)
    ensures r == PackageIdWithDiscount(app)
  {
    if app.packageGroups.None? {
      return Ok(None);
    }
    var packageGroupsNode := app.packageGroups.value;
    var i := 0;
    while i < |packageGroupsNode|
      invariant 0 <= i <= |packageGroupsNode|
      invariant GroupsSearch(packageGroupsNode) == GroupsSearch(packageGroupsNode[i..])
    {
      assert packageGroupsNode[i..][1..] == packageGroupsNode[i + 1..];
      var subsNode := packageGroupsNode[i].subs;
      if subsNode.None? {
        i := i + 1;
        continue;
      }
      var subs := subsNode.value;
      var j := 0;
      while j < |subs|
        invariant 0 <= j <= |subs|
        invariant SubsSearch(subs) == SubsSearch(subs[j..])
      {
        assert subs[j..][1..] == subs[j + 1..];
        if subs[j].priceInCentsWithDiscount.None? {
          return Err(MissingPriceError);
        }
        if subs[j].priceInCentsWithDiscount.value == 0 {
          return Ok(Some(subs[j].packageId));
        }
        j := j + 1;
      }
      i := i + 1;
    }
    return Ok(None);
  }

  // ---------------------------------------------------------------------------
  // getAppStoreMedia

  /** A movie is put into the map when it has an `mp4` node, a non-blank name and a
      non-blank path. */
  predicate MovieKept(m: Movie) {
    m.mp4.Some? && !IsBlank(m.name) && !IsBlank(m.mp4.value.max)
  }

  /** The three images, put first. */
  function ImageEntries(app: AppNode): map<string, string> {
    map["header_image" := app.headerImage, "capsule_image" := app.capsuleImage,
        "capsule_imagev5" := app.capsuleImagev5]
  }

  /** The movies put into `storeMedia` in order; a later movie of the same name
      replaces an earlier one. */
  function MovieEntries(storeMedia: map<string, string>, movies: seq<Movie>): map<string, string>
    decreases |movies|
  {
    if movies == [] then storeMedia
    else
      var before := MovieEntries(storeMedia, movies[..|movies| - 1]);
      var m := movies[|movies| - 1];
      if MovieKept(m) then before[m.name := m.mp4.value.max] else before
  }

  /** `getAppStoreMedia`. */
  function AppStoreMedia(app: AppNode): map<string, string> {
    match app.movies
    case None => ImageEntries(app)
    case Some(movies) => MovieEntries(ImageEntries(app), movies)
  }

  /** A key is in the map exactly when it was there before or names a kept movie; a
      key no kept movie names keeps its earlier value. */
  lemma {:induction false} MovieEntriesMembers(storeMedia: map<string, string>, movies: seq<Movie>, key: string)
    ensures key in MovieEntries(storeMedia, movies)
      <==> key in storeMedia || exists i :: 0 <= i < |movies| && MovieKept(movies[i]) && movies[i].name == key
    ensures key in storeMedia && (forall i :: 0 <= i < |movies| && MovieKept(movies[i]) ==> movies[i].name != key)
      ==> key in MovieEntries(storeMedia, movies) && MovieEntries(storeMedia, movies)[key] == storeMedia[key]
    decreases |movies|
  {
    if movies != [] {
      var init := movies[..|movies| - 1];
      MovieEntriesMembers(storeMedia, init, key);
      assert forall i :: 0 <= i < |init| ==> init[i] == movies[i];
      if exists i :: 0 <= i < |init| && MovieKept(init[i]) && init[i].name == key {
        var i :| 0 <= i < |init| && MovieKept(init[i]) && init[i].name == key;
        assert movies[i] == init[i];
      }
    }
  }

  /** The value stored under a kept movie's name is the path of the last kept movie of
      that name. */
  lemma {:induction false} MovieEntriesLastWins(storeMedia: map<string, string>, movies: seq<Movie>, k: nat)
    requires k < |movies| && MovieKept(movies[k])
    requires forall i :: k < i < |movies| && MovieKept(movies[i]) ==> movies[i].name != movies[k].name
    ensures movies[k].name in MovieEntries(storeMedia, movies)
    ensures MovieEntries(storeMedia, movies)[movies[k].name] == movies[k].mp4.value.max
    decreases |movies|
  {
    var init := movies[..|movies| - 1];
    if k < |movies| - 1 {
      assert init[k] == movies[k];
      MovieEntriesLastWins(storeMedia, init, k);
    }
  }

  /** `getAppStoreMedia`: the three images, then a loop over the movies. */
  method GetAppStoreMedia(app: AppNode) returns (storeMedia: map<string, string>)
    ensures storeMedia == AppStoreMedia(app)
  {
    storeMedia := map[];
    storeMedia := storeMedia["header_image" := app.headerImage];
    storeMedia := storeMedia["capsule_image" := app.capsuleImage];
    storeMedia := storeMedia["capsule_imagev5" := app.capsuleImagev5];
    if app.movies.None? {
      return;
    }
    var movieNode := app.movies.value;
    var i := 0;
    while i < |movieNode|
      invariant 0 <= i <= |movieNode|
      invariant storeMedia == MovieEntries(ImageEntries(app), movieNode[..i])
    {
      assert movieNode[..i + 1][..i] == movieNode[..i];
      var movie := movieNode[i];
      i := i + 1;
      if movie.mp4.None? {
        continue;
      }
      var name := movie.name;
      if IsBlank(name) {
        continue;
      }
      var moviePath := movie.mp4.value.max;
      if !IsBlank(moviePath) {
        storeMedia := storeMedia[name := moviePath];
      }
    }
    assert movieNode[..i] == movieNode;
  }

  // ---------------------------------------------------------------------------
  // getAppScreenshots

  /** `path_full` when present, else `path_thumbnail`, else "". */
  function ImagePath(s: Screenshot): string {
    match s.pathFull
    case Some(full) => full
    case None => match s.pathThumbnail case Some(thumbnail) => thumbnail case None => ""
  }

  /** The non-blank image paths, in screenshot order. */
  function ScreenshotPaths(shots: seq<Screenshot>): seq<string>
    decreases |shots|
  {
    if shots == [] then []
    else
      var before := ScreenshotPaths(shots[..|shots| - 1]);
      var path := ImagePath(shots[|shots| - 1]);
      if IsBlank(path) then before else before + [path]
  }

  /** Every path kept is non-blank and is the path of some screenshot; every
      screenshot with a non-blank path contributes it; no more paths than
      screenshots. */
  lemma {:induction false} ScreenshotPathsMembers(shots: seq<Screenshot>)
    ensures |ScreenshotPaths(shots)| <= |shots|
    ensures forall p :: p in ScreenshotPaths(shots) <==> exists i :: 0 <= i < |shots| && ImagePath(shots[i]) == p && !IsBlank(p)
    decreases |shots|
  {
    if shots != [] {
      var init := shots[..|shots| - 1];
      ScreenshotPathsMembers(init);
      assert forall i :: 0 <= i < |init| ==> init[i] == shots[i];
      forall p | exists i :: 0 <= i < |shots| && ImagePath(shots[i]) == p && !IsBlank(p)
        ensures p in ScreenshotPaths(shots)
      {
        var i :| 0 <= i < |shots| && ImagePath(shots[i]) == p && !IsBlank(p);
        if i < |init| {
          assert ImagePath(init[i]) == p;
        }
      }
    }
  }

  /** A full path is preferred to the thumbnail. */
  lemma FullPathPreferred(s: Screenshot)
    requires s.pathFull.Some?
    ensures ImagePath(s) == s.pathFull.value
  {
  }

  /** `getAppScreenshots`: an empty list without a `screenshots` node. */
  function AppScreenshots(app: AppNode): seq<string> {
    match app.screenshots case None => [] case Some(shots) => ScreenshotPaths(shots)
  }

  method GetAppScreenshots(app: AppNode) returns (screenshots: seq<string>)
    ensures screenshots == AppScreenshots(app)
  {
    screenshots := [];
    if app.screenshots.None? {
      return;
    }
    var screenshotsNode := app.screenshots.value;
    var i := 0;
    while i < |screenshotsNode|
      invariant 0 <= i <= |screenshotsNode|
      invariant screenshots == ScreenshotPaths(screenshotsNode[..i])
    {
      assert screenshotsNode[..i + 1][..i] == screenshotsNode[..i];
      var imagePath := ImagePath(screenshotsNode[i]);
      if !IsBlank(imagePath) {
        screenshots := screenshots + [imagePath];
      }
      i := i + 1;
    }
    assert screenshotsNode[..i] == screenshotsNode;
  }

  // ---------------------------------------------------------------------------
  // setExpirationEpoch and convertAppToGame

  /** The package details request: the package node for an id (Ok(None) for null),
      or the IOException it throws. */
  type PackageDetails = string -> Response<seq<SteamPackageToGame.PackageElement>>

  /** The package details request is made, and throws. */
  predicate PackageRequestFails(packageId: Option<string>, packageDetails: PackageDetails) {
    packageId.Some? && !IsBlank(packageId.value) && packageDetails(packageId.value).Err?
  }

  /** `setExpirationEpoch` once the package id is known: a null or blank id gives the
      sentinel without a request; otherwise the package tier decides, and its request
      failing propagates. */
  function ExpirationEpochFor(packageId: Option<string>, packageDetails: PackageDetails): (r: Result<int>)
    ensures packageId.None? || IsBlank(packageId.value) ==> r == Ok(NoExpirationEpoch)
    ensures packageId.Some? && !IsBlank(packageId.value)
      ==> r == SteamPackageToGame.GetExpirationEpoch(packageDetails(packageId.value))
    ensures r.Err? <==> PackageRequestFails(packageId, packageDetails)
    ensures r.Ok? ==> r.value == NoExpirationEpoch || r.value > 0
  {
    if packageId.None? || IsBlank(packageId.value) then Ok(NoExpirationEpoch)
    else SteamPackageToGame.GetExpirationEpoch(packageDetails(packageId.value))
  }

  /** DLC iff the type is not "game". */
  predicate IsDLC(app: AppNode) {
    app.appType != "game"
  }

  /** The store page of an app. */
  function AppUrl(appId: string): (url: string)
    ensures SteamStoreUrl + "app/" <= url && url[|SteamStoreUrl + "app/"|..] == appId
  {
    SteamStoreUrl + "app/" + appId
  }

  /** `convertAppToGame`: the app details request throwing propagates; empty for a
      missing app, or for a DLC when DLCs are excluded; otherwise the game built from
      the node, its epoch from the package tier. A missing sub price, or the package
      details request throwing, makes the call throw. */
  function AppToGame(appId: string, appDetails: Response<AppNode>, includeDLCs: bool,
                     packageDetails: PackageDetails): Result<Option<Game>>
  {
    match appDetails
    case Err(e) => Err(e)
    case Ok(None) => Ok(None)
    case Ok(Some(app)) =>
      if !includeDLCs && IsDLC(app) then Ok(None)
      else
        match PackageIdWithDiscount(app)
        case Err(e) => Err(e)
        case Ok(packageId) =>
          match ExpirationEpochFor(packageId, packageDetails)
          case Err(e) => Err(e)
          case Ok(epoch) =>
            Ok(Some(Builder().(title := Some(app.name), description := Some(app.shortDescription),
                               url := Some(AppUrl(appId)), isDLC := IsDLC(app), platform := Steam,
                               storeMedia := AppStoreMedia(app), media := AppScreenshots(app),
                               expirationEpoch := epoch)))
  }

  /** What the built game holds: the app's name and description, its store URL, the
      DLC flag, the Steam platform, the media maps and lists above, an epoch that is
      the sentinel or positive, and the builder's default price. */
  lemma AppToGameFields(appId: string, appDetails: Response<AppNode>, includeDLCs: bool,
                        packageDetails: PackageDetails)
    ensures appDetails.Err? ==> AppToGame(appId, appDetails, includeDLCs, packageDetails) == Err(appDetails.reason)
    ensures appDetails == Ok(None) ==> AppToGame(appId, appDetails, includeDLCs, packageDetails) == Ok(None)
    ensures appDetails.Ok? && appDetails.value.Some? && !includeDLCs && appDetails.value.value.appType != "game"
      ==> AppToGame(appId, appDetails, includeDLCs, packageDetails) == Ok(None)
    ensures AppToGame(appId, appDetails, includeDLCs, packageDetails).Err?
      <==> appDetails.Err?
           || (appDetails.value.Some? && (includeDLCs || appDetails.value.value.appType == "game")
               && (PackageIdWithDiscount(appDetails.value.value).Err?
                   || PackageRequestFails(PackageIdWithDiscount(appDetails.value.value).value, packageDetails)))
    ensures var r := AppToGame(appId, appDetails, includeDLCs, packageDetails);
            r.Ok? && r.value.Some?
            ==> var g := r.value.value;
                var app := appDetails.value.value;
                g.title == Some(app.name) && g.description == Some(app.shortDescription)
                && g.url == Some(SteamStoreUrl + "app/" + appId)
                && g.isDLC == (app.appType != "game") && g.platform == Steam
                && g.storeMedia == AppStoreMedia(app) && g.media == AppScreenshots(app)
                && (g.expirationEpoch == NoExpirationEpoch || g.expirationEpoch > 0)
                && g.originalPrice == "N/A"
  {
    var r := AppToGame(appId, appDetails, includeDLCs, packageDetails);
    if r.Ok? && r.value.Some? {
      var packageId := PackageIdWithDiscount(appDetails.value.value).value;
      var e := ExpirationEpochFor(packageId, packageDetails);
    }
  }

  /** `convertAppToGame`, calling the loops above. */
  method ConvertAppToGame(appId: string, appDetails: Response<AppNode>, includeDLCs: bool,
                          packageDetails: PackageDetails) returns (r: Result<Option<Game>>)
    ensures r == AppToGame(appId, appDetails, includeDLCs, packageDetails)
  {
    if appDetails.Err? {
      return Err(appDetails.reason);
    }
    if appDetails.value.None? {
      return Ok(None);
    }
    var appNode := appDetails.value.value;
    var isDLC := appNode.appType != "game";
    if !includeDLCs && isDLC {
      return Ok(None);
    }
    var url := SteamStoreUrl + "app/" + appId;
    var storeMedia := GetAppStoreMedia(appNode);
    var media := GetAppScreenshots(appNode);
    var gameBuilder := Builder().(title := Some(appNode.name), description := Some(appNode.shortDescription),
                                  url := Some(url), isDLC := isDLC, platform := Steam,
                                  storeMedia := storeMedia, media := media);
    var packageId := GetPackageIdWithDiscount(appNode);
    if packageId.Err? {
      return Err(packageId.reason);
    }
    var expirationEpoch := ExpirationEpochFor(packageId.value, packageDetails);
    if expirationEpoch.Err? {
      return Err(expirationEpoch.reason);
    }
    gameBuilder := gameBuilder.(expirationEpoch := expirationEpoch.value);
    return Ok(Some(gameBuilder));
  }
}
