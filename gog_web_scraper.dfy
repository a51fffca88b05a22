/** GOGWebScraper, the me.theforbiddenai tree's later GOG web scraper: it scans a GOG
    game page line by line for the three product card fields, splices them into one JSON object, and
    copies price, description, promotion end and store media from it onto the game.
    Reading the page into lines, Jackson's parsing of the spliced text, Jsoup's
    cleaning of the description, the price formatter and java.time's date parsing are
    parameters or left out. */
module GogWebScraper {
  import opened Common
  import opened Strings
  import opened Domain
  import opened Callbacks

  /** PRODUCT_CARD_FIELD_COUNT. */
  const ProductCardFieldCount := 3

  /** The names of the three product card fields. */
  const ProductCardFieldNames: set<string> := {"cardProduct", "currency", "cardProductPromoEndDate"}

  const CardProductPrefix := "cardProduct:"
  const CurrencyPrefix := "currency:"
  /** Written as two literals: the verifier reads the first letter of the short one,
      which `PrefixesExclusive` needs, but not of one this long. */
  const PromoPrefix := "window." + "productcardData.cardProductPromoEndDate ="

  /** STORE_MEDIA_FIELDS, in list order. */
  const StoreMediaFields: seq<string> := ["backgroundImage", "boxArtImage", "galaxyBackgroundImage", "logo"]

  /** The original price written when the page's base amount is zero. */
  const UnsupportedLocalePrice := "N/A (Unsupported Locale)"

  /** `getJsonValue`: the line without `removePrefix`, cut just after the last
      `endWith` unless it already ends with it; "" when the prefix is longer than the
      line (the caught IndexOutOfBoundsException). */
  function GetJsonValue(line: string, removePrefix: string, endWith: string): string {
    if |removePrefix| > |line| then ""
    else
      var rest := line[|removePrefix|..];
      if EndsWith(rest, endWith) then rest
      else
        var e := LastIndexOf(rest, endWith);
        if e + 1 <= |rest| then rest[..e + 1] else ""
  }

  /** The value is a prefix of the rest of the line: all of it when it already ends
      with `endWith`, nothing when `endWith` does not occur in it. */
  lemma GetJsonValueCuts(line: string, removePrefix: string, endWith: string)
    ensures |removePrefix| > |line| ==> GetJsonValue(line, removePrefix, endWith) == ""
    ensures |removePrefix| <= |line| ==> GetJsonValue(line, removePrefix, endWith) <= line[|removePrefix|..]
    ensures |removePrefix| <= |line| && EndsWith(line[|removePrefix|..], endWith)
      ==> GetJsonValue(line, removePrefix, endWith) == line[|removePrefix|..]
    ensures |removePrefix| <= |line| && !Contains(line[|removePrefix|..], endWith)
      ==> GetJsonValue(line, removePrefix, endWith) == ""
  {
    if |removePrefix| <= |line| {
      var rest := line[|removePrefix|..];
      if EndsWith(rest, endWith) {
        OccursContains(rest, endWith, |rest| - |endWith|);
      } else if LastIndexOf(rest, endWith) >= 0 {
        OccursContains(rest, endWith, LastIndexOf(rest, endWith));
      }
    }
  }

  /** With a one-character terminator the value is the longest prefix of the rest of
      the line that is empty or ends with that character. */
  lemma GetJsonValueEndsAtLast(line: string, removePrefix: string, c: char)
    requires |removePrefix| <= |line|
    ensures var value := GetJsonValue(line, removePrefix, [c]);
            var rest := line[|removePrefix|..];
            (value == "" || value[|value| - 1] == c)
            && forall j :: |value| <= j < |rest| ==> rest[j] != c
  {
    var rest := line[|removePrefix|..];
    LastIndexOfChar(rest, c);
  }

  /** A line's field as the three `startsWith` tests of `getJsonField` leave it: the
      field name ("" for none) and its raw value. */
  datatype LineField = LineField(name: string, value: string)

  function ReadLineField(line: string): LineField {
    var f := LineField("", "");
    var f := if CardProductPrefix <= line then LineField("cardProduct", GetJsonValue(line, CardProductPrefix, "}")) else f;
    var f := if CurrencyPrefix <= line then LineField("currency", GetJsonValue(line, CurrencyPrefix, "\"")) else f;
    if PromoPrefix <= line then LineField("cardProductPromoEndDate", GetJsonValue(line, PromoPrefix, "}")) else f
  }

  /** Each prefix selects its own field whatever the order of the tests, and a line
      with none of them holds no field. */
  lemma ReadLineFieldTests(line: string)
    ensures var f := ReadLineField(line);
            (f.name == "" || f.name in ProductCardFieldNames)
            && (f.name == "" <==> !(CardProductPrefix <= line || CurrencyPrefix <= line || PromoPrefix <= line))
            && (CardProductPrefix <= line ==> f == LineField("cardProduct", GetJsonValue(line, CardProductPrefix, "}")))
            && (CurrencyPrefix <= line ==> f == LineField("currency", GetJsonValue(line, CurrencyPrefix, "\"")))
            && (PromoPrefix <= line ==> f == LineField("cardProductPromoEndDate", GetJsonValue(line, PromoPrefix, "}")))
  {
    PrefixesExclusive(line);
  }

  /** No line starts with two of the field prefixes, so the order of the tests in
      `getJsonField` does not matter. */
  lemma PrefixesExclusive(line: string)
    ensures CardProductPrefix <= line ==> !(CurrencyPrefix <= line) && !(PromoPrefix <= line)
    ensures CurrencyPrefix <= line ==> !(PromoPrefix <= line)
  {
    if CardProductPrefix <= line {
      assert line[0] == 'c' && line[1] == 'a';
    }
    if CurrencyPrefix <= line {
      assert line[0] == 'c' && line[1] == 'u';
    }
    if PromoPrefix <= line {
      assert line[..|PromoPrefix|] == PromoPrefix;
      assert line[0] == PromoPrefix[0] == 'w';
    }
  }

  /** JSON_FIELD_FORMAT: `"name":value`. */
  function JsonFieldText(name: string, value: string): string {
    "\"" + name + "\":" + value
  }

  /** What `getJsonField` returns: the formatted field, or None when the line holds no
      field, its value is blank, or the field was already found. */
  function JsonField(line: string, found: set<string>): Option<string> {
    var f := ReadLineField(line);
    if f.name == "" || IsBlank(f.value) then None
    else if f.name in found then None
    else Some(JsonFieldText(f.name, f.value))
  }

  /** The found-field set after `getJsonField`: the line's field name is added exactly
      when a field is returned. */
  function FoundAfter(line: string, found: set<string>): set<string> {
    if JsonField(line, found).Some? then found + {ReadLineField(line).name} else found
  }

  /** A field is returned only for a product card field not found before, and only
      with a non-blank value; its name then joins the found set and nothing else does. */
  lemma JsonFieldOnce(line: string, found: set<string>)
    ensures JsonField(line, found).Some?
        <==> ReadLineField(line).name != "" && !IsBlank(ReadLineField(line).value)
             && ReadLineField(line).name !in found
    ensures JsonField(line, found).Some? ==> ReadLineField(line).name in ProductCardFieldNames
    ensures JsonField(line, found).Some?
      ==> JsonField(line, found).value == JsonFieldText(ReadLineField(line).name, ReadLineField(line).value)
    ensures JsonField(line, found).Some?
      ==> FoundAfter(line, found) == found + {ReadLineField(line).name}
          && |FoundAfter(line, found)| == |found| + 1
    ensures JsonField(line, found).None? ==> FoundAfter(line, found) == found
  {
    ReadLineFieldTests(line);
  }

  /** `getJsonField`, recording a returned field's name in `foundFields`. */
  method GetJsonField(line: string, foundFields: HashSet<string>) returns (jsonField: Option<string>)
    modifies foundFields
    ensures jsonField == JsonField(line, old(foundFields.elements))
    ensures foundFields.elements == FoundAfter(line, old(foundFields.elements))
  {
    var f := ReadLineField(line);
    if f.name == "" || IsBlank(f.value) {
      return None;
    }
    if f.name in foundFields.elements {
      return None;
    }
    foundFields.Add(f.name);
    return Some(JsonFieldText(f.name, f.value));
  }

  /** The scan state: the fields spliced so far, in page order, and their names. */
  datatype ScanState = ScanState(fields: seq<string>, found: set<string>)

  /** One line of `processHTML`'s loop: nothing more is read once all three fields
      are found (the `break`); otherwise the stripped line's field, if any, is added. */
  function ScanLine(s: ScanState, line: string): ScanState {
    if |s.found| == ProductCardFieldCount then s
    else
      var stripped := StripLeading(line);
      match JsonField(stripped, s.found)
      case None => s
      case Some(field) => ScanState(s.fields + [field], FoundAfter(stripped, s.found))
  }

  /** The scan of the page's lines, in order. */
  function Scan(lines: seq<string>): ScanState {
    if lines == [] then ScanState([], {})
    else ScanLine(Scan(lines[..|lines| - 1]), lines[|lines| - 1])
  }

  /** Every spliced field has its own name: as many fields as names, all of them
      product card field names, and never more than three. */
  lemma {:induction false} ScanInvariant(lines: seq<string>)
    ensures |Scan(lines).fields| == |Scan(lines).found|
    ensures Scan(lines).found <= ProductCardFieldNames
    ensures |Scan(lines).found| <= ProductCardFieldCount
    decreases |lines|
  {
    if lines != [] {
      ScanInvariant(lines[..|lines| - 1]);
      var s := Scan(lines[..|lines| - 1]);
      JsonFieldOnce(StripLeading(lines[|lines| - 1]), s.found);
    }
    SubsetCardinality(Scan(lines).found, ProductCardFieldNames);
  }

  lemma {:induction false} SubsetCardinality<T>(a: set<T>, b: set<T>)
    requires a <= b
    ensures |a| <= |b|
    decreases b
  {
    if b != {} {
      var x :| x in b;
      SubsetCardinality(a - {x}, b - {x});
    }
  }

  /** All three fields found means every product card field was found. */
  lemma AllFound(found: set<string>)
    requires found <= ProductCardFieldNames
    ensures |found| == ProductCardFieldCount <==> found == ProductCardFieldNames
  {
    assert |ProductCardFieldNames| == 3;
    if "cardProduct" !in found {
      SubsetCardinality(found, {"currency", "cardProductPromoEndDate"});
    } else if "currency" !in found {
      SubsetCardinality(found, {"cardProduct", "cardProductPromoEndDate"});
    } else if "cardProductPromoEndDate" !in found {
      SubsetCardinality(found, {"cardProduct", "currency"});
    } else {
      assert found == ProductCardFieldNames;
    }
  }

  /** Once all three fields are found, later lines change nothing. */
  lemma {:induction false} ScanSaturated(lines: seq<string>, k: nat, m: nat)
    requires k <= m <= |lines|
    requires |Scan(lines[..k]).found| == ProductCardFieldCount
    ensures Scan(lines[..m]) == Scan(lines[..k])
    decreases m - k
  {
    if k < m {
      ScanSaturated(lines, k, m - 1);
      ScanPrefix(lines, m - 1);
    }
  }

  /** One pass of the loop body of `processHTML`, from what `getJsonField` returned. */
  lemma ScanStep(lines: seq<string>, i: nat, jsonField: Option<string>, found: set<string>)
    requires i < |lines|
    requires |Scan(lines[..i]).found| < ProductCardFieldCount
    requires jsonField == JsonField(StripLeading(lines[i]), Scan(lines[..i]).found)
    requires found == FoundAfter(StripLeading(lines[i]), Scan(lines[..i]).found)
    ensures jsonField.None? ==> Scan(lines[..i + 1]) == Scan(lines[..i]) && found == Scan(lines[..i]).found
    ensures jsonField.Some?
      ==> Scan(lines[..i + 1]) == ScanState(Scan(lines[..i]).fields + [jsonField.value], found)
  {
    ScanPrefix(lines, i);
  }

  lemma ScanPrefix(lines: seq<string>, i: nat)
    requires i < |lines|
    ensures Scan(lines[..i + 1]) == ScanLine(Scan(lines[..i]), lines[i])
  {
    assert lines[..i + 1][..i] == lines[..i];
  }

  /** Appending a field and a comma to the builder. */
  lemma AppendField(fields: seq<string>, field: string)
    ensures "{" + Terminated(fields, ",") + field + "," == "{" + Terminated(fields + [field], ",")
  {
    TerminatedSnoc(fields, field, ",");
  }

  /** Dropping the hanging comma and closing the brace leaves the fields joined. */
  lemma CloseObject(fields: seq<string>)
    requires fields != []
    ensures var b := "{" + Terminated(fields, ",");
            |b| > 0 && b[..|b| - 1] + "}" == "{" + Join(fields, ",") + "}"
  {
    TerminatedIsJoin(fields, ",");
    var b := "{" + Terminated(fields, ",");
    assert b == ("{" + Join(fields, ",")) + ",";
  }

  /** `processHTML` up to the JSON parse: the spliced object when all three fields
      were found, an error naming the page otherwise. */
  function ProcessHtml(lines: seq<string>, url: string): Result<string> {
    SplicedObject(Scan(lines), url)
  }

  function SplicedObject(s: ScanState, url: string): Result<string> {
    if |s.found| != ProductCardFieldCount then
      Err("Unable to retrieve all required product card data for GOG game with url " + url)
    else Ok("{" + Join(s.fields, ",") + "}")
  }

  /** The page yields a JSON object exactly when each of the three product card
      fields occurs on it with a non-blank value, and the object holds one entry per
      field. */
  lemma ProcessHtmlFindsEveryField(lines: seq<string>, url: string)
    ensures ProcessHtml(lines, url).Ok? <==> Scan(lines).found == ProductCardFieldNames
    ensures ProcessHtml(lines, url).Ok?
      ==> |Scan(lines).fields| == ProductCardFieldCount
          && ProcessHtml(lines, url).value == "{" + Join(Scan(lines).fields, ",") + "}"
  {
    ScanInvariant(lines);
    AllFound(Scan(lines).found);
  }

  /** `processHTML`: appends each field and a comma, stops once three are found, then
      drops the trailing comma and closes the object. */
  lemma ScanWhole(lines: seq<string>)
    ensures Scan(lines[..|lines|]) == Scan(lines)
  {
    assert lines[..|lines|] == lines;
  }

  method ProcessHTML(lines: seq<string>, url: string) returns (r: Result<string>)
    ensures r == SplicedObject(Scan(lines), url)
  {
    var jsonBuilder := "{";
    var foundFields := new HashSet<string>();
    ghost var fields: seq<string> := [];
    var i := 0;
    while i < |lines|
      invariant 0 <= i <= |lines|
      invariant Scan(lines[..i]) == ScanState(fields, foundFields.elements)
      invariant |foundFields.elements| < ProductCardFieldCount
      invariant jsonBuilder == "{" + Terminated(fields, ",")
    {
      var line := StripLeading(lines[i]);
      var jsonField := GetJsonField(line, foundFields);
      ScanStep(lines, i, jsonField, foundFields.elements);
      i := i + 1;
      if jsonField.None? {
        continue;
      }
      AppendField(fields, jsonField.value);
      jsonBuilder := jsonBuilder + jsonField.value + ",";
      fields := fields + [jsonField.value];
      if |foundFields.elements| == ProductCardFieldCount {
        ScanSaturated(lines, i, |lines|);
        break;
      }
    }
    ScanWhole(lines);
    ScanInvariant(lines);
    if |foundFields.elements| != ProductCardFieldCount {
      return Err("Unable to retrieve all required product card data for GOG game with url " + url);
    }
    CloseObject(fields);
    jsonBuilder := jsonBuilder[..|jsonBuilder| - 1];
    jsonBuilder := jsonBuilder + "}";
    return Ok(jsonBuilder);
  }

  /** The product card JSON as `modifyGameAttributes` reads it. `baseAmount` is
      `cardProduct.price.baseAmount` as a double (None when either is missing);
      `cardFields` maps each field of `cardProduct` to its `asText("")`; the promotion
      date and timezone are None when the field is missing. */
  datatype ProductCard = ProductCard(
    baseAmount: Option<real>,
    description: Option<string>,
    cardFields: map<string, string>,
    currency: string,
    promoDate: Option<string>,
    promoTimezone: Option<string>)

  /** `insertStoreMediaEntry`: the field's url is put into the map only when the
      field exists and its text is not blank. */
  function InsertStoreMediaEntry(storeMedia: map<string, string>, cardFields: map<string, string>, jsonField: string)
    : (m: map<string, string>)
    ensures jsonField in cardFields && !IsBlank(cardFields[jsonField]) ==> m == storeMedia[jsonField := cardFields[jsonField]]
    ensures jsonField !in cardFields || IsBlank(cardFields[jsonField]) ==> m == storeMedia
  {
    if jsonField !in cardFields then storeMedia
    else
      var url := cardFields[jsonField];
      if IsBlank(url) then storeMedia else storeMedia[jsonField := url]
  }

  /** STORE_MEDIA_FIELDS.forEach(insertStoreMediaEntry). */
  function InsertStoreMediaEntries(storeMedia: map<string, string>, cardFields: map<string, string>, fields: seq<string>)
    : map<string, string>
  {
    if fields == [] then storeMedia
    else InsertStoreMediaEntry(InsertStoreMediaEntries(storeMedia, cardFields, fields[..|fields| - 1]),
                               cardFields, fields[|fields| - 1])
  }

  /** A key ends up in the store media exactly when it was there or is one of the
      fields with a non-blank url, which then wins. */
  lemma {:induction false} InsertStoreMediaEntriesMembers(
    storeMedia: map<string, string>, cardFields: map<string, string>, fields: seq<string>, k: string)
    ensures var m := InsertStoreMediaEntries(storeMedia, cardFields, fields);
            var added := k in fields && k in cardFields && !IsBlank(cardFields[k]);
            (k in m <==> k in storeMedia || added)
            && (added ==> m[k] == cardFields[k])
            && (k in storeMedia && !added ==> m[k] == storeMedia[k])
    decreases |fields|
  {
    if fields != [] {
      var init := fields[..|fields| - 1];
      InsertStoreMediaEntriesMembers(storeMedia, cardFields, init, k);
      assert fields == init + [fields[|fields| - 1]];
    }
  }

  /** `getExpirationEpoch`: `Optional.of` on a missing `date` or `timezone` throws,
      so the empty-Optional guard never applies; a date that `parseEpoch` cannot
      read gives the sentinel. */
  function ExpirationEpoch(card: ProductCard, parseEpoch: (string, string) -> Option<int>): (r: Result<int>)
    ensures r.Err? <==> card.promoDate.None? || card.promoTimezone.None?
    ensures r.Ok? && parseEpoch(card.promoDate.value, card.promoTimezone.value).None? ==> r.value == NoExpirationEpoch
    ensures r.Ok? && parseEpoch(card.promoDate.value, card.promoTimezone.value).Some?
      ==> r.value == parseEpoch(card.promoDate.value, card.promoTimezone.value).value
  {
    if card.promoDate.None? || card.promoTimezone.None? then Err("NullPointerException")
    else
      match parseEpoch(card.promoDate.value, card.promoTimezone.value)
      case None => Ok(NoExpirationEpoch)
      case Some(epoch) => Ok(epoch)
  }

  /** The original price: left as it was without a base amount, the unsupported
      locale text for zero, the formatted amount otherwise. */
  function CardPrice(card: ProductCard, price: string, formatPrice: (real, string) -> string): string {
    match card.baseAmount
    case None => price
    case Some(amount) => if amount == 0.0 then UnsupportedLocalePrice else formatPrice(amount, card.currency)
  }

  /** `modifyGameAttributes`: price, description, expiration epoch and store media
      from the product card; title, url, DLC flag, platform and screenshots are left
      alone. `describe` is `getDescription`. */
  function ModifyGameAttributes(
    card: ProductCard, game: Game, formatPrice: (real, string) -> string,
    describe: Option<string> -> string, parseEpoch: (string, string) -> Option<int>)
    : (r: Result<Game>)
    ensures r.Err? <==> ExpirationEpoch(card, parseEpoch).Err?
    ensures r.Ok? ==> r.value.title == game.title && r.value.url == game.url && r.value.isDLC == game.isDLC
                      && r.value.platform == game.platform && r.value.media == game.media
    ensures r.Ok? ==> r.value.description == Some(describe(card.description))
    ensures r.Ok? ==> r.value.expirationEpoch == ExpirationEpoch(card, parseEpoch).value
    ensures r.Ok? && card.baseAmount.None? ==> r.value.originalPrice == game.originalPrice
    ensures r.Ok? && card.baseAmount == Some(0.0) ==> r.value.originalPrice == UnsupportedLocalePrice
    ensures r.Ok? && card.baseAmount.Some? && card.baseAmount.value != 0.0
      ==> r.value.originalPrice == formatPrice(card.baseAmount.value, card.currency)
    ensures r.Ok? ==> r.value.storeMedia == InsertStoreMediaEntries(game.storeMedia, card.cardFields, StoreMediaFields)
  {
    var priced := game.(originalPrice := CardPrice(card, game.originalPrice, formatPrice));
    var described := priced.(description := Some(describe(card.description)));
    match ExpirationEpoch(card, parseEpoch)
    case Err(e) => Err(e)
    case Ok(epoch) =>
      Ok(described.(expirationEpoch := epoch,
                    storeMedia := InsertStoreMediaEntries(game.storeMedia, card.cardFields, StoreMediaFields)))
  }
}
