/** GOGWebScrape, the me.theforbiddenai tree's earlier GOG web scraper: it collects the
    three product card fields from the matches of a regular expression over the whole page and
    splices them into one JSON object; `modifyGameAttributes` fetches that object and
    changes nothing on the game. Running the regular expression and Jackson's parsing
    of the spliced text are left out: the matches are the input. */
module GogWebScrape {
  import opened Common
  import opened Strings
  import opened Domain
  import GogWebScraper

  /** One match of PRODUCT_CARD_REGEX. Each of its three alternatives names a field
      by a literal, so `prod`, `cur` and `promo` say which alternative's name group
      took part; a value group is None when it did not take part. */
  datatype CardMatch = CardMatch(
    prod: bool, cur: bool, promo: bool,
    prodVal: Option<string>, curVal: Option<string>, promoVal: Option<string>)

  /** PRODUCT_CARD_FIELD_MAP: field name to the name of its value group. */
  const ProductCardFieldMap: map<string, string> :=
    map["cardProduct" := "prodVal", "currency" := "curVal", "cardProductPromoEndDate" := "promoVal"]

  /** The field name: the text of the first name group that took part. */
  function FieldName(m: CardMatch): (name: Option<string>)
    ensures name.None? <==> !m.prod && !m.cur && !m.promo
    ensures m.prod ==> name == Some("cardProduct")
    ensures !m.prod && m.cur ==> name == Some("currency")
    ensures !m.prod && !m.cur && m.promo ==> name == Some("cardProductPromoEndDate")
    ensures name.Some? ==> name.value in ProductCardFieldMap
  {
    if m.prod then Some("cardProduct")
    else if m.cur then Some("currency")
    else if m.promo then Some("cardProductPromoEndDate")
    else None
  }

  /** `group(name)` for the three value groups. */
  function Group(m: CardMatch, groupName: string): Option<string> {
    if groupName == "prodVal" then m.prodVal
    else if groupName == "curVal" then m.curVal
    else if groupName == "promoVal" then m.promoVal
    else None
  }

  /** The entries spliced so far, in match order, and the names found. */
  datatype ScanState = ScanState(entries: seq<string>, found: set<string>)

  /** One pass of the `find()` loop: it stops once every field is found; a match
      without a name, with a name already found, or without its value is skipped;
      otherwise its entry is added. */
  function ScanMatch(s: ScanState, m: CardMatch): ScanState {
    if |s.found| == |ProductCardFieldMap| then s
    else
      match FieldName(m)
      case None => s
      case Some(name) =>
        if name in s.found then s
        else
          match Group(m, ProductCardFieldMap[name])
          case None => s
          case Some(value) => ScanState(s.entries + [GogWebScraper.JsonFieldText(name, value)], s.found + {name})
  }

  /** The scan of the matches, in order. */
  function Scan(matches: seq<CardMatch>): ScanState {
    if matches == [] then ScanState([], {})
    else ScanMatch(Scan(matches[..|matches| - 1]), matches[|matches| - 1])
  }

  /** As many entries as names, all of them product card fields. */
  lemma {:induction false} ScanInvariant(matches: seq<CardMatch>)
    ensures |Scan(matches).entries| == |Scan(matches).found|
    ensures Scan(matches).found <= ProductCardFieldMap.Keys
    decreases |matches|
  {
    if matches != [] {
      ScanInvariant(matches[..|matches| - 1]);
    }
  }

  /** A match whose value group did not take part is skipped without marking its
      field as found, so a later match can still supply that field. */
  lemma MissingValueSkipped(s: ScanState, m: CardMatch)
    requires FieldName(m).Some?
    requires Group(m, ProductCardFieldMap[FieldName(m).value]).None?
    ensures ScanMatch(s, m) == s
  {
  }

  lemma ScanPrefix(matches: seq<CardMatch>, i: nat)
    requires i < |matches|
    ensures Scan(matches[..i + 1]) == ScanMatch(Scan(matches[..i]), matches[i])
  {
    assert matches[..i + 1][..i] == matches[..i];
  }

  lemma ScanWhole(matches: seq<CardMatch>)
    ensures Scan(matches[..|matches|]) == Scan(matches)
  {
    assert matches[..|matches|] == matches;
  }

  /** Once every field is found, later matches change nothing. */
  lemma {:induction false} ScanSaturated(matches: seq<CardMatch>, k: nat, n: nat)
    requires k <= n <= |matches|
    requires |Scan(matches[..k]).found| == |ProductCardFieldMap|
    ensures Scan(matches[..n]) == Scan(matches[..k])
    decreases n - k
  {
    if k < n {
      ScanSaturated(matches, k, n - 1);
      ScanPrefix(matches, n - 1);
    }
  }

  /** The spliced object, or the error naming the page when a field is missing. */
  function SplicedObject(s: ScanState, url: string): Result<string> {
    if |s.found| != |ProductCardFieldMap| then Err("Unable to retrieve required data for GOG game with URL " + url)
    else Ok("{" + Join(s.entries, ",") + "}")
  }

  /** `getProductCardData` up to the JSON parse. */
  function ProductCardData(matches: seq<CardMatch>, url: string): Result<string> {
    SplicedObject(Scan(matches), url)
  }

  /** The page yields an object exactly when all three fields were found, one entry
      each. */
  lemma ProductCardDataFindsEveryField(matches: seq<CardMatch>, url: string)
    ensures ProductCardData(matches, url).Ok? <==> Scan(matches).found == GogWebScraper.ProductCardFieldNames
    ensures ProductCardData(matches, url).Ok?
      ==> |Scan(matches).entries| == 3
          && ProductCardData(matches, url).value == "{" + Join(Scan(matches).entries, ",") + "}"
  {
    ScanInvariant(matches);
    assert ProductCardFieldMap.Keys == GogWebScraper.ProductCardFieldNames;
    assert |ProductCardFieldMap| == 3;
    GogWebScraper.AllFound(Scan(matches).found);
  }

  /** `getProductCardData`: checks for completion before each match, appends each
      accepted entry and a comma, then drops the trailing comma and closes the
      object. */
  method GetProductCardData(matches: seq<CardMatch>, url: string) returns (r: Result<string>)
    ensures r == SplicedObject(Scan(matches), url)
  {
    var jsonBuilder := "{";
    var foundFields: set<string> := {};
    ghost var entries: seq<string> := [];
    var productCardMapSize := |ProductCardFieldMap|;
    var i := 0;
    while i < |matches|
      invariant 0 <= i <= |matches|
      invariant Scan(matches[..i]) == ScanState(entries, foundFields)
      invariant jsonBuilder == "{" + Terminated(entries, ",")
    {
      if |foundFields| == productCardMapSize {
        ScanSaturated(matches, i, |matches|);
        break;
      }
      ScanPrefix(matches, i);
      var m := matches[i];
      i := i + 1;
      var fieldName := FieldName(m);
      if fieldName.None? || fieldName.value in foundFields {
        continue;
      }
      var valueGroupName := ProductCardFieldMap[fieldName.value];
      var fieldValue := Group(m, valueGroupName);
      if fieldValue.None? {
        continue;
      }
      foundFields := foundFields + {fieldName.value};
      var entry := GogWebScraper.JsonFieldText(fieldName.value, fieldValue.value);
      GogWebScraper.AppendField(entries, entry);
      jsonBuilder := jsonBuilder + entry + ",";
      entries := entries + [entry];
    }
    ScanWhole(matches);
    if |foundFields| != productCardMapSize {
      return Err("Unable to retrieve required data for GOG game with URL " + url);
    }
    ScanInvariant(matches);
    GogWebScraper.CloseObject(entries);
    jsonBuilder := jsonBuilder[..|jsonBuilder| - 1];
    jsonBuilder := jsonBuilder + "}";
    return Ok(jsonBuilder);
  }

  /** The url as string concatenation writes it: "null" when there is none. */
  function UrlText(url: Option<string>): string {
    match url case None => "null" case Some(u) => u
  }

  /** `modifyGameAttributes`: the product card is fetched and nothing on the game
      changes; only the missing-data error reaches the caller. */
  function ModifyGameAttributes(matches: seq<CardMatch>, game: Game): (r: Result<Game>)
    ensures r.Err? <==> ProductCardData(matches, UrlText(game.url)).Err?
    ensures r.Ok? ==> r.value == game
  {
    match ProductCardData(matches, UrlText(game.url))
    case Err(e) => Err(e)
    case Ok(_) => Ok(game)
  }
}
