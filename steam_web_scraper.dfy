/** The Steam listing-page scrapers of the me.theforbiddenai tree: SteamWebScraper and
    its earlier copy SteamWebScrape run the same line scan for the "Free to keep"
    notice and set the game's expiration epoch from it. They differ only in how the
    date text is read: "MMM d @ h:mma" against "MMM dd @ h:mma", the earlier one then
    moving the Los Angeles time to the system zone, which keeps the instant. Finding
    the date in a line (STEAM_MONTH_DAY_TIME_REGEX) and reading it (LocalDateTime.parse
    with the year defaulted, placed in America/Los_Angeles) are parameters; the
    parameter returns None where java.time throws. */
module SteamWebScraper {
  import opened Common
  import opened Strings
  import opened Domain

  const FreeToKeep := "Free to keep"
  const LimitedTimePromotion := "limited-time promotion"

  /** The first date in a line, as the regular expression finds it. */
  type DateFinder = string -> Option<string>

  /** Date text and year to an epoch second; None where parsing throws. */
  type DateParser = (string, int) -> Option<int>

  /** The matched date with "am" and "pm" upper-cased for the formatter. */
  function UpperMeridiem(date: string): (r: string)
    ensures !Contains(date, "am") && !Contains(date, "pm") ==> r == date
  {
    var amReplaced := Replace(date, "am", "AM");
    assert !Contains(date, "am") ==> amReplaced == date;
    Replace(amReplaced, "pm", "PM")
  }

  /** What one line of the page decides. */
  datatype Verdict =
    | Skip                 // no "Free to keep", or no date and no promotion notice
    | NoEndDate            // a limited-time promotion without an end date
    | EndDate(text: string) // the upper-cased first date on the line

  function LineVerdict(line: string, findDate: DateFinder): Verdict {
    var stripped := StripLeading(line);
    if !Contains(stripped, FreeToKeep) then Skip
    else
      match findDate(stripped)
      case None => if Contains(stripped, LimitedTimePromotion) then NoEndDate else Skip
      case Some(date) => EndDate(UpperMeridiem(date))
  }

  /** Only a stripped line holding "Free to keep" can decide: with a date it gives
      that date, without one it decides only when it mentions a limited-time
      promotion. */
  lemma LineVerdictMeaning(line: string, findDate: DateFinder)
    ensures var stripped := StripLeading(line);
            var v := LineVerdict(line, findDate);
            (!Contains(stripped, FreeToKeep) ==> v == Skip)
            && (v == NoEndDate
                <==> Contains(stripped, FreeToKeep) && findDate(stripped).None? && Contains(stripped, LimitedTimePromotion))
            && (v.EndDate? <==> Contains(stripped, FreeToKeep) && findDate(stripped).Some?)
            && (v.EndDate? ==> v.text == UpperMeridiem(findDate(stripped).value))
  {
  }

  /** The epoch a deciding line gives: the sentinel for a promotion without an end
      date, the parsed date otherwise; a date the formatter rejects is an error. */
  function Decide(v: Verdict, parseDate: DateParser, year: int): Result<int> {
    match v
    case Skip => Ok(NoExpirationEpoch)
    case NoEndDate => Ok(NoExpirationEpoch)
    case EndDate(text) =>
      match parseDate(text, year)
      case None => Err("Unable to parse date " + text)
      case Some(epoch) => Ok(epoch)
  }

  /** `processHTML`: the first line that decides gives the epoch; none gives the
      sentinel. */
  function ScrapeEpoch(lines: seq<string>, findDate: DateFinder, parseDate: DateParser, year: int): Result<int>
    decreases |lines|
  {
    if lines == [] then Ok(NoExpirationEpoch)
    else
      match LineVerdict(lines[0], findDate)
      case Skip => ScrapeEpoch(lines[1..], findDate, parseDate, year)
      case v => Decide(v, parseDate, year)
  }

  /** Whether a line decides the epoch. */
  predicate Decides(line: string, findDate: DateFinder) {
    LineVerdict(line, findDate) != Skip
  }

  /** The index of the first line that decides, or -1. */
  function FirstDecidingLine(lines: seq<string>, findDate: DateFinder): (k: int)
    ensures -1 <= k < |lines|
    decreases |lines|
  {
    if lines == [] then -1
    else if Decides(lines[0], findDate) then 0
    else
      var k := FirstDecidingLine(lines[1..], findDate);
      if k < 0 then -1 else k + 1
  }

  /** The index found decides and no line before it does. */
  lemma {:induction false} FirstDecidingLineIsFirst(lines: seq<string>, findDate: DateFinder)
    ensures var k := FirstDecidingLine(lines, findDate);
            (k >= 0 ==> Decides(lines[k], findDate))
            && forall j :: 0 <= j < (if k < 0 then |lines| else k) ==> !Decides(lines[j], findDate)
    decreases |lines|
  {
    if lines != [] && !Decides(lines[0], findDate) {
      FirstDecidingLineIsFirst(lines[1..], findDate);
      var k := FirstDecidingLine(lines, findDate);
      forall j | 1 <= j < (if k < 0 then |lines| else k)
        ensures !Decides(lines[j], findDate)
      {
        assert lines[1..][j - 1] == lines[j];
      }
    }
  }

  /** Only the first deciding line matters: every line before it is skipped and
      every line after it is never read. */
  lemma {:induction false} ScrapeEpochFirstDecidingLine(
    lines: seq<string>, findDate: DateFinder, parseDate: DateParser, year: int)
    ensures var k := FirstDecidingLine(lines, findDate);
            ScrapeEpoch(lines, findDate, parseDate, year)
            == if k < 0 then Ok(NoExpirationEpoch) else Decide(LineVerdict(lines[k], findDate), parseDate, year)
    decreases |lines|
  {
    if lines != [] && !Decides(lines[0], findDate) {
      ScrapeEpochFirstDecidingLine(lines[1..], findDate, parseDate, year);
    }
  }

  /** A page whose lines never mention "Free to keep" has no end date. */
  lemma {:induction false} NoNoticeNoEndDate(
    lines: seq<string>, findDate: DateFinder, parseDate: DateParser, year: int)
    requires forall j :: 0 <= j < |lines| ==> !Contains(StripLeading(lines[j]), FreeToKeep)
    ensures ScrapeEpoch(lines, findDate, parseDate, year) == Ok(NoExpirationEpoch)
    decreases |lines|
  {
    if lines != [] {
      LineVerdictMeaning(lines[0], findDate);
      NoNoticeNoEndDate(lines[1..], findDate, parseDate, year);
    }
  }

  /** Every epoch the scan yields is the sentinel or one the parser produced. */
  lemma {:induction false} ScrapeEpochParsed(
    lines: seq<string>, findDate: DateFinder, parseDate: DateParser, year: int)
    ensures var r := ScrapeEpoch(lines, findDate, parseDate, year);
            r.Ok? ==> r.value == NoExpirationEpoch
                      || exists j :: 0 <= j < |lines| && LineVerdict(lines[j], findDate).EndDate?
                                     && parseDate(LineVerdict(lines[j], findDate).text, year) == Some(r.value)
    decreases |lines|
  {
    if lines != [] && LineVerdict(lines[0], findDate) == Skip {
      ScrapeEpochParsed(lines[1..], findDate, parseDate, year);
      var r := ScrapeEpoch(lines, findDate, parseDate, year);
      if r.Ok? && r.value != NoExpirationEpoch {
        var j :| 0 <= j < |lines[1..]| && LineVerdict(lines[1..][j], findDate).EndDate?
                 && parseDate(LineVerdict(lines[1..][j], findDate).text, year) == Some(r.value);
        assert lines[1..][j] == lines[j + 1];
      }
    }
  }

  /** `processHTML`: reads the page line by line and returns at the first line that
      decides. */
  method ProcessHTML(lines: seq<string>, findDate: DateFinder, parseDate: DateParser, year: int)
    returns (r: Result<int>)
    ensures r == ScrapeEpoch(lines, findDate, parseDate, year)
  {
    var i := 0;
    while i < |lines|
      invariant 0 <= i <= |lines|
      invariant ScrapeEpoch(lines, findDate, parseDate, year) == ScrapeEpoch(lines[i..], findDate, parseDate, year)
    {
      assert lines[i..][1..] == lines[i + 1..];
      var line := StripLeading(lines[i]);
      if !Contains(line, FreeToKeep) {
        i := i + 1;
        continue;
      }
      var matched := findDate(line);
      if matched.None? {
        if Contains(line, LimitedTimePromotion) {
          return Ok(NoExpirationEpoch);
        }
        i := i + 1;
        continue;
      }
      var expirationDate := UpperMeridiem(matched.value);
      var parsed := parseDate(expirationDate, year);
      if parsed.None? {
        return Err("Unable to parse date " + expirationDate);
      }
      return Ok(parsed.value);
    }
    return Ok(NoExpirationEpoch);
  }

  /** `modifyGameAttributes` after `processHTML`: only the expiration epoch changes. */
  function ScrapeGame(lines: seq<string>, game: Game, findDate: DateFinder, parseDate: DateParser, year: int)
    : (r: Result<Game>)
    ensures r.Err? <==> ScrapeEpoch(lines, findDate, parseDate, year).Err?
    ensures r.Ok? ==> r.value == game.(expirationEpoch := ScrapeEpoch(lines, findDate, parseDate, year).value)
  {
    match ScrapeEpoch(lines, findDate, parseDate, year)
    case Err(e) => Err(e)
    case Ok(epoch) => Ok(WithExpirationEpoch(game, epoch))
  }
}
