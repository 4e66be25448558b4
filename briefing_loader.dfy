/**
 * The source loader of the closing market briefing
 * (closing_briefing/data_loader.py): the mapping of a calendar impact to an
 * importance, the news categories, the FOMC press conference files named
 * `year_month_dates`, the DynamoDB news list, and `load_all_sources`, which
 * fills the six source keys from successive locations without overwriting
 * what an earlier location already supplied.
 *
 * The file system, the JSON and CSV readers and the DynamoDB scan are
 * parameters: what each location yields is given, and the model decides
 * what the loader makes of it.
 */
module BriefingLoader {
  import opened Wrappers
  import opened PyStr
  import VT = ValidationTypes
  import KeySort
  import FF = FomcFilenames
  import FomcScraperNew

  // ---------------------------------------------------------------------------
  // _map_impact_to_importance

  /**
   * `int(s)` on a string: white space around an optional sign and decimal
   * digits; None where Python raises ValueError.
   */
  function ParseInt(s: string): Option<int> {
    var t := Strip(s);
    if |t| > 0 && (t[0] == '-' || t[0] == '+') then
      if IsDigits(t[1..]) then Some(if t[0] == '-' then -(DigitsValue(t[1..]) as int) else DigitsValue(t[1..])) else None
    else if IsDigits(t) then Some(DigitsValue(t))
    else None
  }

  /** `int(str(i)) == i` */
  lemma ParseIntStr(i: int)
    ensures ParseInt(IntStr(i)) == Some(i)
  {
    var s := IntStr(i);
    assert !IsSpace(s[0]) && !IsSpace(s[|s| - 1]);
    StripNoop(s);
    if i < 0 {
      assert s[1..] == NatStr(-i);
    } else {
      assert IsDigit(s[0]);
    }
  }

  const High := "high"
  const Medium := "medium"
  const Low := "low"

  /**
   * `_map_impact_to_importance(impact)`: a CSV cell that is missing
   * (`None`, a TypeError) or not an integer counts as medium.
   */
  function ImpactImportance(impact: Option<string>): string {
    if impact.None? then Medium
    else
      match ParseInt(impact.value)
      case None => Medium
      case Some(n) => if n >= 3 then High else if n == 2 then Medium else Low
  }

  function ImportanceRank(importance: string): nat {
    if importance == High then 2 else if importance == Medium then 1 else 0
  }

  /**
   * An impact of 3 or more is high, exactly 2 is medium, any other integer
   * is low, and a cell that is not an integer is medium; a greater impact
   * never gives a lower importance.
   */
  lemma ImportanceRule(n: int, text: string)
    ensures ImpactImportance(Some(IntStr(n))) == if n >= 3 then High else if n == 2 then Medium else Low
    ensures ParseInt(text).None? ==> ImpactImportance(Some(text)) == Medium
    ensures ImpactImportance(None) == Medium
    ensures forall m :: n <= m ==>
      ImportanceRank(ImpactImportance(Some(IntStr(n)))) <= ImportanceRank(ImpactImportance(Some(IntStr(m))))
  {
    ImportanceOfInt(n);
    forall m | n <= m
      ensures ImportanceRank(ImpactImportance(Some(IntStr(n)))) <= ImportanceRank(ImpactImportance(Some(IntStr(m))))
    {
      ImportanceOfInt(m);
    }
  }

  lemma ImportanceOfInt(n: int)
    ensures ImpactImportance(Some(IntStr(n))) == if n >= 3 then High else if n == 2 then Medium else Low
  {
    ParseIntStr(n);
  }

  // ---------------------------------------------------------------------------
  // _categorize_news and _categorize_news_by_tickers

  const MacroTags := ["fed", "fomc", "interest rate", "inflation", "cpi", "ppi", "gdp"]
  const GeopoliticalTags := ["china", "europe", "geopolitical", "trade war", "tariff"]
  const CompanyTags := ["earnings", "revenue", "eps", "guidance"]

  function LowerAll(tags: seq<string>): (lowered: seq<string>)
    ensures |lowered| == |tags| && forall i :: 0 <= i < |tags| ==> lowered[i] == Lower(tags[i])
  {
    seq(|tags|, i requires 0 <= i < |tags| => Lower(tags[i]))
  }

  /** One of `words` is among the lower-cased tags. */
  predicate Mentions(tags: seq<string>, words: seq<string>) {
    var lowered := LowerAll(tags);
    exists w | w in words :: w in lowered
  }

  /** `_categorize_news(tags)` */
  function CategorizeNews(tags: seq<string>): string {
    if Mentions(tags, MacroTags) then "macro"
    else if Mentions(tags, GeopoliticalTags) then "geopolitical"
    else if Mentions(tags, CompanyTags) then "company"
    else "sector"
  }

  function CategoryRank(category: string): nat {
    if category == "macro" then 3 else if category == "geopolitical" then 2 else if category == "company" then 1 else 0
  }

  /** Some tag, lower-cased, is one of `words`. */
  predicate Tagged(tags: seq<string>, words: seq<string>) {
    exists i :: 0 <= i < |tags| && Lower(tags[i]) in words
  }

  lemma MentionsTagged(tags: seq<string>, words: seq<string>)
    ensures Mentions(tags, words) <==> Tagged(tags, words)
  {
    var lowered := LowerAll(tags);
    if Tagged(tags, words) {
      var i :| 0 <= i < |tags| && Lower(tags[i]) in words;
      assert lowered[i] in lowered;
    }
  }

  /**
   * Macro tags win over geopolitical ones, those over company ones, and a
   * list with none of them is "sector"; tags match whatever their case, and
   * only which tags occur matters, not their order or repetition.
   */
  lemma CategoryPrecedence(tags: seq<string>, other: seq<string>)
    ensures CategorizeNews(tags) == "macro" <==> Tagged(tags, MacroTags)
    ensures CategorizeNews(tags) == "geopolitical" <==> !Tagged(tags, MacroTags) && Tagged(tags, GeopoliticalTags)
    ensures CategorizeNews(tags) == "company" <==>
      !Tagged(tags, MacroTags) && !Tagged(tags, GeopoliticalTags) && Tagged(tags, CompanyTags)
    ensures CategorizeNews(tags) == "sector" <==>
      !Tagged(tags, MacroTags) && !Tagged(tags, GeopoliticalTags) && !Tagged(tags, CompanyTags)
    ensures (forall t :: t in tags ==> t in other) ==> CategoryRank(CategorizeNews(tags)) <= CategoryRank(CategorizeNews(other))
    ensures (forall t :: t in tags <==> t in other) ==> CategorizeNews(tags) == CategorizeNews(other)
  {
    MentionsTagged(tags, MacroTags);
    MentionsTagged(tags, GeopoliticalTags);
    MentionsTagged(tags, CompanyTags);
    MentionsTagged(other, MacroTags);
    MentionsTagged(other, GeopoliticalTags);
    MentionsTagged(other, CompanyTags);
    if forall t :: t in tags ==> t in other {
      TaggedSubset(tags, other, MacroTags);
      TaggedSubset(tags, other, GeopoliticalTags);
      TaggedSubset(tags, other, CompanyTags);
    }
    if forall t :: t in tags <==> t in other {
      TaggedSubset(other, tags, MacroTags);
      TaggedSubset(other, tags, GeopoliticalTags);
      TaggedSubset(other, tags, CompanyTags);
    }
  }

  lemma TaggedSubset(tags: seq<string>, other: seq<string>, words: seq<string>)
    requires forall t :: t in tags ==> t in other
    ensures Tagged(tags, words) ==> Tagged(other, words)
  {
    if Tagged(tags, words) {
      var i :| 0 <= i < |tags| && Lower(tags[i]) in words;
      assert tags[i] in other;
      var j :| 0 <= j < |other| && other[j] == tags[i];
    }
  }

  const TechTickers := ["AAPL", "GOOGL", "GOOG", "MSFT", "META", "AMZN", "NVDA", "TSLA", "AMD", "INTC"]
  const FinancialTickers := ["JPM", "BAC", "GS", "MS", "C", "WFC"]
  const EnergyTickers := ["XOM", "CVX", "COP", "OXY", "SLB"]

  predicate Known(ticker: string) {
    Upper(ticker) in TechTickers || Upper(ticker) in FinancialTickers || Upper(ticker) in EnergyTickers
  }

  /** The category the first known ticker gives: a technology company, else a sector; "company" when none is known. */
  function FirstKnownCategory(tickers: seq<string>): string {
    if |tickers| == 0 then "company"
    else
      var u := Upper(tickers[0]);
      if u in TechTickers then "company"
      else if u in FinancialTickers then "sector"
      else if u in EnergyTickers then "sector"
      else FirstKnownCategory(tickers[1..])
  }

  /** `_categorize_news_by_tickers(tickers)` */
  function TickerCategory(tickers: seq<string>): string {
    if |tickers| == 0 then "sector" else FirstKnownCategory(tickers)
  }

  /**
   * No ticker is "sector"; otherwise the first known ticker decides, a
   * financial or energy one giving "sector" and a technology one
   * "company", and a list with no known ticker is "company".
   */
  lemma {:induction false} FirstKnownRule(tickers: seq<string>)
    ensures FirstKnownCategory(tickers) == "sector" <==>
      exists i :: 0 <= i < |tickers| && Known(tickers[i]) && Upper(tickers[i]) !in TechTickers
                  && forall j :: 0 <= j < i ==> !Known(tickers[j])
    ensures FirstKnownCategory(tickers) == "company" || FirstKnownCategory(tickers) == "sector"
  {
    if |tickers| > 0 {
      FirstKnownRule(tickers[1..]);
      if !Known(tickers[0]) {
        if FirstKnownCategory(tickers) == "sector" {
          var i :| 0 <= i < |tickers[1..]| && Known(tickers[1..][i]) && Upper(tickers[1..][i]) !in TechTickers
                   && forall j :: 0 <= j < i ==> !Known(tickers[1..][j]);
          assert tickers[i + 1] == tickers[1..][i];
          assert forall j :: 0 <= j < i + 1 ==> !Known(tickers[j]) by {
            forall j | 0 <= j < i + 1 ensures !Known(tickers[j]) {
              if j > 0 {
                assert tickers[j] == tickers[1..][j - 1];
              }
            }
          }
        } else {
          forall i | 0 <= i < |tickers| && Known(tickers[i]) && Upper(tickers[i]) !in TechTickers
            ensures exists j :: 0 <= j < i && Known(tickers[j])
          {
            assert i > 0 && tickers[i] == tickers[1..][i - 1];
            var j :| 0 <= j < i - 1 && Known(tickers[1..][j]);
            assert tickers[j + 1] == tickers[1..][j];
          }
        }
      }
    }
  }

  lemma TickerCategoryRule(tickers: seq<string>)
    ensures TickerCategory(tickers) == "sector" <==>
      |tickers| == 0
      || exists i :: 0 <= i < |tickers| && Known(tickers[i]) && Upper(tickers[i]) !in TechTickers
                     && forall j :: 0 <= j < i ==> !Known(tickers[j])
    ensures TickerCategory(tickers) == "company" || TickerCategory(tickers) == "sector"
    ensures |tickers| > 0 && (forall t :: t in tickers ==> !Known(t)) ==> TickerCategory(tickers) == "company"
  {
    FirstKnownRule(tickers);
  }

  // ---------------------------------------------------------------------------
  // _load_fomc_metadata: `year_month_dates[_...]` file stems

  /** `month_map.get(month.lower(), '01')` */
  function MonthNumber(month: string): string {
    match Lower(month)
    case "jan" => "01" case "feb" => "02" case "mar" => "03" case "apr" => "04"
    case "may" => "05" case "jun" => "06" case "jul" => "07" case "aug" => "08"
    case "sep" => "09" case "oct" => "10" case "nov" => "11" case "dec" => "12"
    case _ => "01"
  }

  /** `s.zfill(width)`: zeros on the left up to `width`, placed after a leading sign. */
  function ZFill(s: string, width: nat): (r: string)
    ensures |r| == if |s| >= width then |s| else width
  {
    if |s| >= width then s
    else if |s| > 0 && (s[0] == '+' || s[0] == '-') then [s[0]] + Zeros(width - |s|) + s[1..]
    else Zeros(width - |s|) + s
  }

  /** Zero-filling a digit string keeps its value and only ever lengthens it. */
  lemma ZFillDigits(s: string, width: nat)
    requires IsDigits(s)
    ensures var r := ZFill(s, width);
      IsDigits(r) && DigitsValue(r) == DigitsValue(s) && EndsWith(r, s)
  {
    if |s| < width {
      LeadingZerosValue(width - |s|, s);
      var r := Zeros(width - |s|) + s;
      assert r[|r| - |s|..] == s;
    }
  }

  /** `dates.split('-')[0] if '-' in dates else dates` */
  function FirstDate(dates: string): string {
    if Contains(dates, "-") then Split(dates, "-")[0] else dates
  }

  datatype FomcEvent = FomcEvent(
    id: string,
    date: string,
    title: string,
    eventType: string,
    textSnippet: string,
    meetingDates: string,
    filename: string)

  /** The event `_load_fomc_metadata` builds for one PDF stem; None for a stem with fewer than three `_` parts. */
  function FomcEventOf(stem: string): Option<FomcEvent> {
    var parts := Split(stem, "_");
    if |parts| < 3 then None
    else
      var year, month, dates := parts[0], parts[1], parts[2];
      var monthNum := MonthNumber(month);
      Some(FomcEvent(
        "fomc_" + stem,
        year + "-" + monthNum + "-" + ZFill(FirstDate(dates), 2),
        "FOMC Press Conference - " + Capitalize(month) + " " + year,
        "press_conference",
        "FOMC 회의 기자회견 (" + dates + " " + Capitalize(month) + " " + year + ")",
        year + "-" + monthNum + "-" + dates,
        stem + ".pdf"))
  }

  /** The values `parse` gives the elements of `xs`, in order, those it gives none for skipped. */
  function Parsed<A, B>(xs: seq<A>, parse: A -> Option<B>): (ys: seq<B>)
    ensures |ys| <= |xs|
  {
    if |xs| == 0 then []
    else
      var last := parse(xs[|xs| - 1]);
      Parsed(xs[..|xs| - 1], parse) + (if last.Some? then [last.value] else [])
  }

  /** Every element that parses gives its value, and every value comes from an element. */
  lemma {:induction false} ParsedExact<A, B>(xs: seq<A>, parse: A -> Option<B>)
    ensures forall y :: y in Parsed(xs, parse) ==> exists i :: 0 <= i < |xs| && parse(xs[i]) == Some(y)
    ensures forall i :: 0 <= i < |xs| && parse(xs[i]).Some? ==> parse(xs[i]).value in Parsed(xs, parse)
    ensures (forall x :: x in xs ==> parse(x).Some?) ==> |Parsed(xs, parse)| == |xs|
  {
    if |xs| > 0 {
      var init := xs[..|xs| - 1];
      ParsedExact(init, parse);
      forall i | 0 <= i < |xs| && parse(xs[i]).Some? ensures parse(xs[i]).value in Parsed(xs, parse) {
        if i < |init| {
          assert init[i] == xs[i];
        }
      }
      forall y | y in Parsed(xs, parse) ensures exists i :: 0 <= i < |xs| && parse(xs[i]) == Some(y) {
        if y in Parsed(init, parse) {
          var i :| 0 <= i < |init| && parse(init[i]) == Some(y);
          assert xs[i] == init[i];
        }
      }
      if forall x :: x in xs ==> parse(x).Some? {
        assert forall x :: x in init ==> x in xs;
        assert xs[|xs| - 1] in xs;
      }
    }
  }

  /** The events of the PDF stems in the order given, stems that do not parse skipped. */
  function FomcEvents(stems: seq<string>): seq<FomcEvent> {
    Parsed(stems, FomcEventOf)
  }

  /** Splitting `a + [c] + b` on `c` when `a` has no `c`: `a`, then the parts of `b`. */
  lemma SplitAtSep(a: string, c: char, b: string)
    requires !Contains(a, [c])
    ensures Split(a + [c] + b, [c]) == [a] + Split(b, [c])
  {
    var s := a + [c] + b;
    assert OccursAt(s, [c], |a|) by {
      assert s[|a|..|a| + 1] == [c];
    }
    forall j | 0 <= j < |a| ensures !OccursAt(s, [c], j) {
      assert s[j..j + 1] == a[j..j + 1];
      assert !OccursAt(a, [c], j);
    }
    assert Find(s, [c]) == |a|;
    assert s[..|a|] == a && s[|a| + 1..] == b;
  }

  /** A string without `c` does not contain `[c]`. */
  lemma NoSep(s: string, c: char)
    requires forall i :: 0 <= i < |s| ==> s[i] != c
    ensures !Contains(s, [c])
  {
    forall j | 0 <= j <= |s| - 1 ensures !OccursAt(s, [c], j) {
      assert s[j..j + 1][0] == s[j];
    }
  }

  /** A string without `c` splits on it into itself. */
  lemma Lacks(s: string, c: char)
    requires forall i :: 0 <= i < |s| ==> s[i] != c
    ensures !Contains(s, [c])
    ensures Split(s, [c]) == [s]
  {
    NoSep(s, c);
  }

  /**
   * The month abbreviations the FOMC scraper writes into its file names are
   * exactly the keys of this loader's month map, so a scraped file never
   * falls back to January unless it is a January meeting.
   */
  lemma ScraperMonthsKnown(monthKey: string)
    requires FF.MeetingMonthAbbrevGet(monthKey).Some?
    ensures var abbr := FF.MeetingMonthAbbrevGet(monthKey).value;
      MonthNumber(abbr) == "01" <==> abbr == "jan"
  {
    var abbr := FF.MeetingMonthAbbrevGet(monthKey).value;
    LowerNoop(abbr);
  }

  lemma LowerNoop(s: string)
    requires forall i :: 0 <= i < |s| ==> !('A' <= s[i] <= 'Z')
    ensures Lower(s) == s
  {
  }

  /** Three fields without `_`, joined by `_`, split back into themselves. */
  lemma SplitThree(a: string, b: string, c: string)
    requires forall i :: 0 <= i < |a| ==> a[i] != '_'
    requires forall i :: 0 <= i < |b| ==> b[i] != '_'
    requires forall i :: 0 <= i < |c| ==> c[i] != '_'
    ensures Split(a + "_" + b + "_" + c, "_") == [a, b, c]
  {
    var bc := b + "_" + c;
    assert a + "_" + b + "_" + c == a + ['_'] + bc;
    SplitTwo(b, c);
    NoSep(a, '_');
    SplitAtSep(a, '_', bc);
  }

  lemma SplitTwo(b: string, c: string)
    requires forall i :: 0 <= i < |b| ==> b[i] != '_'
    requires forall i :: 0 <= i < |c| ==> c[i] != '_'
    ensures Split(b + "_" + c, "_") == [b, c]
  {
    Lacks(c, '_');
    NoSep(b, '_');
    SplitAtSep(b, '_', c);
  }

  /** The scraper's month abbreviations are three lower-case letters. */
  lemma AbbrevLetters(monthKey: string)
    requires FF.MeetingMonthAbbrevGet(monthKey).Some?
    ensures var abbr := FF.MeetingMonthAbbrevGet(monthKey).value;
      |abbr| == 3 && forall i :: 0 <= i < |abbr| ==> 'a' <= abbr[i] <= 'z'
  {
  }

  /** The meeting ID splits on `_` into its year, month abbreviation and dates. */
  lemma MeetingIdParts(m: FomcScraperNew.MeetingMaterial)
    requires 1000 <= m.year < 10000
    requires FF.MeetingMonthAbbrevGet(FF.MonthKeyOf(m.month)).Some?
    requires forall i :: 0 <= i < |m.dates| ==> m.dates[i] != '_'
    ensures Split(FF.GetMeetingId(m), "_")
         == [NatStr(m.year), FF.MeetingMonthAbbrevGet(FF.MonthKeyOf(m.month)).value, m.dates]
  {
    var abbr := FF.MeetingMonthAbbrevGet(FF.MonthKeyOf(m.month)).value;
    assert FF.MeetingMonthAbbr(FF.MonthKeyOf(m.month)) == abbr;
    var year := NatStr(m.year);
    assert IntStr(m.year) == year;
    AbbrevLetters(FF.MonthKeyOf(m.month));
    SplitThree(year, abbr, m.dates);
  }

  /** The first day of `D-E`, or of a lone `D`, is `D`. */
  lemma FirstDateOf(d: string, e: Option<string>)
    requires IsDigits(d) && (e.Some? ==> IsDigits(e.value))
    ensures var dates := if e.Some? then d + "-" + e.value else d;
      FirstDate(dates) == d && forall i :: 0 <= i < |dates| ==> dates[i] != '_'
  {
    DatesLack(d, e);
    if e.Some? {
      var dates := d + "-" + e.value;
      NoSep(d, '-');
      SplitAtSep(d, '-', e.value);
      assert OccursAt(dates, "-", |d|) by { assert dates[|d|..|d| + 1] == "-"; }
    } else {
      NoSep(d, '-');
    }
  }

  /** Digits joined by `-` hold no `_`. */
  lemma DatesLack(d: string, e: Option<string>)
    requires IsDigits(d) && (e.Some? ==> IsDigits(e.value))
    ensures var dates := if e.Some? then d + "-" + e.value else d;
      forall i :: 0 <= i < |dates| ==> dates[i] != '_'
  {
    if e.Some? {
      var dates := d + "-" + e.value;
      forall i | 0 <= i < |dates| ensures dates[i] != '_' {
        if i < |d| { assert dates[i] == d[i]; }
        else if i > |d| { assert dates[i] == e.value[i - |d| - 1]; }
      }
    }
  }

  /**
   * A press conference file named by the scraper's meeting ID
   * `year_abbr_D-E` (or `year_abbr_D`) is read back as the date
   * `year-MM-DD`: the year as written, the month of the abbreviation, and
   * the first day zero-filled to two digits with its value kept.
   */
  lemma MeetingIdDate(m: FomcScraperNew.MeetingMaterial, d: string, e: Option<string>)
    requires 1000 <= m.year < 10000
    requires FF.MeetingMonthAbbrevGet(FF.MonthKeyOf(m.month)).Some?
    requires IsDigits(d) && |d| <= 2
    requires e.Some? ==> IsDigits(e.value)
    requires m.dates == if e.Some? then d + "-" + e.value else d
    ensures var ev := FomcEventOf(FF.GetMeetingId(m));
      ev.Some?
      && ev.value.date
         == NatStr(m.year) + "-" + MonthNumber(FF.MeetingMonthAbbrevGet(FF.MonthKeyOf(m.month)).value) + "-" + ZFill(d, 2)
      && |ZFill(d, 2)| == 2 && IsDigits(ZFill(d, 2)) && DigitsValue(ZFill(d, 2)) == DigitsValue(d)
  {
    FirstDateOf(d, e);
    MeetingIdParts(m);
    ZFillDigits(d, 2);
  }

  // ---------------------------------------------------------------------------
  // _load_news_from_dynamodb: what is made of the scanned items

  /** An item of the news table; a missing attribute is None. */
  datatype DynamoItem = DynamoItem(
    title: Option<string>,
    provider: Option<string>,
    tickers: Option<seq<string>>,
    publishEtIso: Option<string>,
    url: Option<string>)

  datatype NewsItem = NewsItem(
    headline: string,
    source: string,
    category: string,
    summary: string,
    marketImpact: string,
    tags: seq<string>,
    publishedDate: string,
    relevanceScore: real,
    url: string,
    tickers: seq<string>)

  const DefaultRelevance: real := 0.7
  const NewsLimit := 30

  /** The news record one table item becomes. */
  function NewsOf(item: DynamoItem): NewsItem {
    var tickers := item.tickers.UnwrapOr([]);
    NewsItem(item.title.UnwrapOr(""), item.provider.UnwrapOr("Yahoo Finance"), TickerCategory(tickers),
             item.title.UnwrapOr(""), "", tickers, item.publishEtIso.UnwrapOr(""), DefaultRelevance,
             item.url.UnwrapOr(""), tickers)
  }

  /** The converted items with a non-empty headline, in scan order. */
  function Headlined(items: seq<DynamoItem>): (news: seq<NewsItem>)
    ensures |news| <= |items|
  {
    if |items| == 0 then []
    else
      var n := NewsOf(items[|items| - 1]);
      Headlined(items[..|items| - 1]) + (if n.headline != "" then [n] else [])
  }

  /** The sort key `(relevance_score, published_date)`. */
  function NewsKey(n: NewsItem): (real, string) {
    (n.relevanceScore, n.publishedDate)
  }

  /** Python's tuple `<` on the sort key. */
  predicate KeyLess(a: (real, string), b: (real, string)) {
    a.0 < b.0 || (a.0 == b.0 && VT.LexLess(a.1, b.1))
  }

  lemma KeyLessOrder()
    ensures VT.StrictOrder(KeyLess)
  {
    VT.LexLessOrder();
  }

  /**
   * The list `_load_news_from_dynamodb` returns for a scan: nothing when
   * the scan raises, else the headlined items sorted by key, greatest
   * first (ties in scan order), and at most 30 of them.
   */
  function DynamoNews(scan: Option<seq<DynamoItem>>): seq<NewsItem> {
    if scan.None? then []
    else
      var sorted := KeySort.SortDesc(Headlined(scan.value), NewsKey, KeyLess);
      if |sorted| <= NewsLimit then sorted else sorted[..NewsLimit]
  }

  lemma {:induction false} HeadlinedFrom(items: seq<DynamoItem>)
    ensures forall n :: n in Headlined(items) ==> n.headline != "" && exists i :: 0 <= i < |items| && n == NewsOf(items[i])
    ensures forall i :: 0 <= i < |items| && NewsOf(items[i]).headline != "" ==> NewsOf(items[i]) in Headlined(items)
  {
    if |items| > 0 {
      var init := items[..|items| - 1];
      HeadlinedFrom(init);
      forall n | n in Headlined(items) ensures n.headline != "" && exists i :: 0 <= i < |items| && n == NewsOf(items[i]) {
        if n in Headlined(init) {
          var i :| 0 <= i < |init| && n == NewsOf(init[i]);
          assert items[i] == init[i];
        }
      }
      forall i | 0 <= i < |items| && NewsOf(items[i]).headline != "" ensures NewsOf(items[i]) in Headlined(items) {
        if i < |init| {
          assert items[i] == init[i];
        }
      }
    }
  }

  /**
   * The DynamoDB news list holds at most 30 items, each with a headline and
   * converted from a scanned item; it is ordered by (relevance, date), latest
   * first, and is drawn from the headlined items without repeats beyond
   * theirs; it holds all of them, or 30 when there are more.
   */
  lemma DynamoNewsRule(scan: Option<seq<DynamoItem>>)
    ensures var news := DynamoNews(scan);
      |news| <= NewsLimit
      && (scan.None? ==> news == [])
      && KeySort.SortedDesc(news, NewsKey, KeyLess)
      && (scan.Some? ==> multiset(news) <= multiset(Headlined(scan.value)))
      && (scan.Some? ==> |news| == if |Headlined(scan.value)| <= NewsLimit then |Headlined(scan.value)| else NewsLimit)
      && (scan.Some? && |Headlined(scan.value)| <= NewsLimit ==> multiset(news) == multiset(Headlined(scan.value)))
      && forall n :: n in news ==>
           (n.headline != "" && n.relevanceScore == DefaultRelevance
            && exists i :: 0 <= i < |scan.value| && n == NewsOf(scan.value[i]))
  {
    if scan.Some? {
      var kept := Headlined(scan.value);
      var sorted := KeySort.SortDesc(kept, NewsKey, KeyLess);
      KeyLessOrder();
      KeySort.SortDescCorrect(kept, NewsKey, KeyLess);
      HeadlinedFrom(scan.value);
      var news := DynamoNews(scan);
      if |sorted| > NewsLimit {
        KeySort.TakeSortedDesc(sorted, NewsLimit, NewsKey, KeyLess);
      }
      forall n | n in news ensures n in kept {
        assert n in multiset(sorted);
      }
    }
  }

  /** The sorted headlined items are in key order and are the same items. */
  lemma SortedNews(kept: seq<NewsItem>)
    ensures KeySort.SortedDesc(KeySort.SortDesc(kept, NewsKey, KeyLess), NewsKey, KeyLess)
    ensures multiset(KeySort.SortDesc(kept, NewsKey, KeyLess)) == multiset(kept)
  {
    KeyLessOrder();
    KeySort.SortDescCorrect(kept, NewsKey, KeyLess);
  }

  /** The sort keeps the scan order of the items of each key. */
  lemma SortedNewsStable(kept: seq<NewsItem>, k: (real, string))
    ensures KeySort.WithKey(KeySort.SortDesc(kept, NewsKey, KeyLess), NewsKey, k) == KeySort.WithKey(kept, NewsKey, k)
  {
    KeyLessOrder();
    KeySort.SortDescStable(kept, NewsKey, KeyLess, k);
  }

  /** A headlined item that did not make the list sorts no higher than any item on it. */
  lemma DynamoNewsCutoff(scan: Option<seq<DynamoItem>>)
    ensures scan.Some? ==> var news := DynamoNews(scan);
      forall x, y :: x in Headlined(scan.value) && x !in news && y in news ==> !KeyLess(NewsKey(y), NewsKey(x))
  {
    if scan.Some? {
      var kept := Headlined(scan.value);
      var sorted := KeySort.SortDesc(kept, NewsKey, KeyLess);
      SortedNews(kept);
      var n := if |sorted| <= NewsLimit then |sorted| else NewsLimit;
      assert DynamoNews(scan) == sorted[..n];
      KeySort.TakeSortedDescCutoff(sorted, n, NewsKey, KeyLess);
      forall x | x in kept ensures x in sorted {
        assert x in multiset(sorted);
      }
    }
  }

  /**
   * The sort is stable: the listed items of any one (relevance, date) key
   * are the first items of that key in scan order.  All items share one
   * relevance, so among items of one date the earliest scanned are kept.
   */
  lemma DynamoNewsStable(scan: Option<seq<DynamoItem>>, k: (real, string))
    requires scan.Some?
    ensures var ties := KeySort.WithKey(Headlined(scan.value), NewsKey, k);
      var listed := KeySort.WithKey(DynamoNews(scan), NewsKey, k);
      |listed| <= |ties| && listed == ties[..|listed|]
  {
    var kept := Headlined(scan.value);
    var sorted := KeySort.SortDesc(kept, NewsKey, KeyLess);
    SortedNewsStable(kept, k);
    var n := if |sorted| <= NewsLimit then |sorted| else NewsLimit;
    assert DynamoNews(scan) == sorted[..n];
    KeySort.TakeWithKey(sorted, n, NewsKey, k);
  }

  /** All items share one relevance, so the order is by publication time alone, latest first. */
  lemma DynamoNewsLatestFirst(scan: Option<seq<DynamoItem>>)
    ensures var news := DynamoNews(scan);
      forall i, j :: 0 <= i < j < |news| ==> !VT.LexLess(news[i].publishedDate, news[j].publishedDate)
  {
    DynamoNewsRule(scan);
  }

  // ---------------------------------------------------------------------------
  // The sources dict

  /** An element of a source list. */
  datatype Entry = Article(news: NewsItem) | Meeting(event: FomcEvent) | Row(fields: VT.Record)

  /** A value of the sources dict: a list, an object, or another JSON value known only by its truthiness. */
  datatype Value = Items(items: seq<Entry>) | Object(fields: VT.Record) | Scalar(truthy: bool)

  predicate Truthy(v: Value) {
    match v
    case Items(items) => |items| > 0
    case Object(fields) => |fields| > 0
    case Scalar(t) => t
  }

  type Sources = map<string, Value>

  /** `sources.get(key)` is truthy: present and not empty. */
  predicate Filled(sources: Sources, key: string) {
    key in sources && Truthy(sources[key])
  }

  const SourceKeys: set<string> :=
    {"macro_data", "earnings_data", "news_data", "calendar_events", "fomc_events", "market_summary"}

  /** `_get_empty_sources()`: the six keys, each empty, `market_summary` an object and the rest lists. */
  function EmptySources(): (s: Sources)
    ensures s.Keys == SourceKeys
    ensures forall k :: k in s ==> !Truthy(s[k])
    ensures forall k :: k in s ==> s[k] == if k == "market_summary" then Object(map[]) else Items([])
  {
    map["macro_data" := Items([]), "earnings_data" := Items([]), "news_data" := Items([]),
        "calendar_events" := Items([]), "fomc_events" := Items([]), "market_summary" := Object(map[])]
  }

  /** A loaded dict, in insertion order; a Python dict never repeats a key. */
  predicate DistinctKeys(d: seq<(string, Value)>) {
    forall i, j :: 0 <= i < j < |d| ==> d[i].0 != d[j].0
  }

  function AsMap(d: seq<(string, Value)>): (m: map<string, Value>)
    requires DistinctKeys(d)
    ensures forall k :: k in m <==> exists i :: 0 <= i < |d| && d[i].0 == k
    ensures forall i :: 0 <= i < |d| ==> d[i].0 in m && m[d[i].0] == d[i].1
  {
    map i | 0 <= i < |d| :: d[i].0 := d[i].1
  }

  /** `loaded.get(key)` */
  function Lookup(d: seq<(string, Value)>, key: string): Option<Value>
    requires DistinctKeys(d)
  {
    var m := AsMap(d);
    if key in m then Some(m[key]) else None
  }

  /** `sources.update(loaded)` */
  function Update(sources: Sources, loaded: seq<(string, Value)>): Sources
    requires DistinctKeys(loaded)
  {
    sources + AsMap(loaded)
  }

  /** Every key of `m` whose value in `sources` is missing or falsy takes its value from `m`. */
  function FillFrom(sources: Sources, m: map<string, Value>): (r: Sources)
    ensures forall k :: k in r <==> k in sources || k in m
    ensures forall k :: k in r ==> r[k] == if k in m && !Filled(sources, k) then m[k] else sources[k]
  {
    sources + map k | k in m && !Filled(sources, k) :: m[k]
  }

  /**
   * The merge loops of `load_all_sources`: each loaded key whose current
   * value is missing or falsy takes the loaded value; the rest stay.
   */
  function FillMissing(sources: Sources, loaded: seq<(string, Value)>): Sources
    requires DistinctKeys(loaded)
  {
    FillFrom(sources, AsMap(loaded))
  }

  /**
   * The merge never replaces a truthy value, fills every missing or falsy
   * key it is given, and touches nothing else.
   */
  lemma FillMissingRule(sources: Sources, loaded: seq<(string, Value)>)
    requires DistinctKeys(loaded)
    ensures var r := FillMissing(sources, loaded);
      (forall k :: Filled(sources, k) ==> k in r && r[k] == sources[k])
      && (forall i :: 0 <= i < |loaded| && !Filled(sources, loaded[i].0) ==> r[loaded[i].0] == loaded[i].1)
      && (forall k :: k in sources && Lookup(loaded, k).None? ==> r[k] == sources[k])
      && (forall k :: k in r <==> k in sources || Lookup(loaded, k).Some?)
  {
  }

  lemma FillFromIdempotent(sources: Sources, m: map<string, Value>)
    ensures FillFrom(FillFrom(sources, m), m) == FillFrom(sources, m)
  {
    var r := FillFrom(sources, m);
    var r2 := FillFrom(r, m);
    forall k | k in r ensures r2[k] == r[k] {
      if k in m && !Filled(r, k) {
        assert !Filled(sources, k);
      }
    }
    MapsEqual(r2, r);
  }

  /** Maps with the same keys and the same value at each key are equal. */
  lemma MapsEqual<K, V>(a: map<K, V>, b: map<K, V>)
    requires a.Keys == b.Keys && forall k :: k in a ==> a[k] == b[k]
    ensures a == b
  {
  }

  /** A second merge of the same dict changes nothing. */
  lemma FillMissingIdempotent(sources: Sources, loaded: seq<(string, Value)>)
    requires DistinctKeys(loaded)
    ensures FillMissing(FillMissing(sources, loaded), loaded) == FillMissing(sources, loaded)
  {
    FillFromIdempotent(sources, AsMap(loaded));
  }

  /** The prefixes of a dict are dicts, each one entry longer than the last. */
  lemma AsMapSnoc(d: seq<(string, Value)>, i: nat)
    requires DistinctKeys(d) && i < |d|
    ensures DistinctKeys(d[..i]) && DistinctKeys(d[..i + 1])
    ensures d[i].0 !in AsMap(d[..i])
    ensures AsMap(d[..i + 1]) == AsMap(d[..i])[d[i].0 := d[i].1]
  {
    assert d[..i + 1] == d[..i] + [d[i]];
    assert forall j :: 0 <= j < i ==> d[..i][j] == d[j];
    assert forall j :: 0 <= j < i + 1 ==> d[..i + 1][j] == d[j];
    AsMapAppend(d[..i], d[i]);
  }

  /** A dict with one more entry at its end. */
  lemma AsMapAppend(p: seq<(string, Value)>, x: (string, Value))
    requires DistinctKeys(p + [x])
    ensures DistinctKeys(p) && x.0 !in AsMap(p)
    ensures AsMap(p + [x]) == AsMap(p)[x.0 := x.1]
  {
    AsMapFresh(p, x);
    AsMapAppendKeys(p, x);
    AsMapAppendValues(p, x);
    MapUpdated(AsMap(p + [x]), AsMap(p), x.0, x.1);
  }

  /** A map with the keys and values of `b[k0 := v0]` is `b[k0 := v0]`. */
  lemma MapUpdated<K, V>(a: map<K, V>, b: map<K, V>, k0: K, v0: V)
    requires a.Keys == b.Keys + {k0}
    requires forall k :: k in a ==> a[k] == if k == k0 then v0 else b[k]
    ensures a == b[k0 := v0]
  {
  }

  lemma AsMapFresh(p: seq<(string, Value)>, x: (string, Value))
    requires DistinctKeys(p + [x])
    ensures DistinctKeys(p) && x.0 !in AsMap(p)
  {
    var q := p + [x];
    assert forall j :: 0 <= j < |p| ==> q[j] == p[j];
    assert q[|p|] == x;
  }

  lemma AsMapAppendKeys(p: seq<(string, Value)>, x: (string, Value))
    requires DistinctKeys(p + [x]) && DistinctKeys(p)
    ensures AsMap(p + [x]).Keys == AsMap(p).Keys + {x.0}
  {
    AsMapAppendNew(p, x);
    AsMapAppendOld(p, x);
  }

  lemma AsMapAppendNew(p: seq<(string, Value)>, x: (string, Value))
    requires DistinctKeys(p + [x]) && DistinctKeys(p)
    ensures forall k :: k in AsMap(p + [x]) ==> k in AsMap(p) || k == x.0
  {
    var q := p + [x];
    forall k | k in AsMap(q) ensures k in AsMap(p) || k == x.0 {
      var j :| 0 <= j < |q| && q[j].0 == k;
      if j < |p| { assert q[j] == p[j]; }
    }
  }

  lemma AsMapAppendOld(p: seq<(string, Value)>, x: (string, Value))
    requires DistinctKeys(p + [x]) && DistinctKeys(p)
    ensures x.0 in AsMap(p + [x]) && forall k :: k in AsMap(p) ==> k in AsMap(p + [x])
  {
    var q := p + [x];
    assert q[|p|] == x;
    forall k | k in AsMap(p) ensures k in AsMap(q) {
      var j :| 0 <= j < |p| && p[j].0 == k;
      assert q[j] == p[j];
    }
  }

  lemma AsMapAppendValues(p: seq<(string, Value)>, x: (string, Value))
    requires DistinctKeys(p + [x]) && DistinctKeys(p)
    ensures forall k :: k in AsMap(p + [x]) ==> AsMap(p + [x])[k] == if k == x.0 then x.1 else AsMap(p)[k]
  {
    var q := p + [x];
    var m, m' := AsMap(p), AsMap(q);
    forall k | k in m' ensures m'[k] == if k == x.0 then x.1 else m[k] {
      var j :| 0 <= j < |q| && q[j].0 == k;
      assert q[|p|] == x;
      if j < |p| {
        assert q[j] == p[j];
      }
    }
  }

  lemma FillFromStep(sources: Sources, m: map<string, Value>, key: string, v: Value)
    requires key !in m
    ensures var r := FillFrom(sources, m);
      FillFrom(sources, m[key := v]) == if Filled(r, key) then r else r[key := v]
  {
    var r := FillFrom(sources, m);
    var after := FillFrom(sources, m[key := v]);
    FillFromStepKeys(sources, m, key, v);
    FillFromStepValues(sources, m, key, v);
    if Filled(r, key) {
      MapsEqual(after, r);
    } else {
      MapUpdated(after, r, key, v);
    }
  }

  lemma FillFromStepKeys(sources: Sources, m: map<string, Value>, key: string, v: Value)
    requires key !in m
    ensures FillFrom(sources, m[key := v]).Keys == FillFrom(sources, m).Keys + {key}
  {
  }

  lemma FillFromStepValues(sources: Sources, m: map<string, Value>, key: string, v: Value)
    requires key !in m
    ensures var r := FillFrom(sources, m);
      forall k :: k in FillFrom(sources, m[key := v]) ==>
        FillFrom(sources, m[key := v])[k] == if k == key && !Filled(r, key) then v else r[k]
  {
    var r := FillFrom(sources, m);
    var m' := m[key := v];
    var after := FillFrom(sources, m');
    assert Filled(r, key) == Filled(sources, key);
    forall k | k in after ensures after[k] == if k == key && !Filled(r, key) then v else r[k] {
      if k != key {
        assert (k in m') == (k in m);
        assert k in m ==> m'[k] == m[k];
      }
    }
  }

  /** One more round of the merge loop. */
  lemma FillMissingStep(sources: Sources, loaded: seq<(string, Value)>, i: nat)
    requires DistinctKeys(loaded) && i < |loaded|
    ensures DistinctKeys(loaded[..i]) && DistinctKeys(loaded[..i + 1])
    ensures var m := FillMissing(sources, loaded[..i]);
      FillMissing(sources, loaded[..i + 1])
      == if Filled(m, loaded[i].0) then m else m[loaded[i].0 := loaded[i].1]
  {
    AsMapSnoc(loaded, i);
    FillFromStep(sources, AsMap(loaded[..i]), loaded[i].0, loaded[i].1);
  }

  /** The merge loop, run on a copy of `sources`. */
  method MergeMissing(sources: Sources, loaded: seq<(string, Value)>) returns (merged: Sources)
    requires DistinctKeys(loaded)
    ensures merged == FillMissing(sources, loaded)
  {
    merged := sources;
    assert FillMissing(sources, loaded[..0]) == sources;
    for i := 0 to |loaded|
      invariant DistinctKeys(loaded[..i])
      invariant merged == FillMissing(sources, loaded[..i])
    {
      FillMissingStep(sources, loaded, i);
      var key := loaded[i].0;
      if !Filled(merged, key) {
        merged := merged[key := loaded[i].1];
      }
    }
    assert loaded[..|loaded|] == loaded;
  }

  // ---------------------------------------------------------------------------
  // The locations load_all_sources reads

  /**
   * What one scraper output directory holds: the events of its newest
   * calendar CSV, the indicators of its newest indicators CSV, and the
   * stems of its FOMC press conference PDFs in sorted order, each None when
   * that sub-directory does not exist.
   */
  datatype TeDirs = TeDirs(calendar: Option<seq<Entry>>, indicators: Option<seq<Entry>>, fomcStems: Option<seq<string>>)

  function Meetings(events: seq<FomcEvent>): (entries: seq<Entry>)
    ensures |entries| == |events| && forall i :: 0 <= i < |events| ==> entries[i] == Meeting(events[i])
  {
    seq(|events|, i requires 0 <= i < |events| => Meeting(events[i]))
  }

  function Articles(news: seq<NewsItem>): (entries: seq<Entry>)
    ensures |entries| == |news| && forall i :: 0 <= i < |news| ==> entries[i] == Article(news[i])
  {
    seq(|news|, i requires 0 <= i < |news| => Article(news[i]))
  }

  /** `_load_from_te_scraper(dir)`: a key for each sub-directory that exists. */
  function TeData(dirs: TeDirs): (loaded: seq<(string, Value)>)
    ensures DistinctKeys(loaded)
    ensures forall i :: 0 <= i < |loaded| ==> loaded[i].0 in {"calendar_events", "macro_data", "fomc_events"}
  {
    (if dirs.calendar.Some? then [("calendar_events", Items(dirs.calendar.value))] else [])
    + (if dirs.indicators.Some? then [("macro_data", Items(dirs.indicators.value))] else [])
    + (if dirs.fomcStems.Some? then [("fomc_events", Items(Meetings(FomcEvents(dirs.fomcStems.value))))] else [])
  }

  /** The JSON files of a directory that exist and parse, by file name. */
  type JsonFiles = map<string, Value>

  const ProcessedFiles: seq<(string, string)> :=
    [("macro_data.json", "macro_data"), ("calendar_events.json", "calendar_events"), ("fomc_events.json", "fomc_events")]

  const DirectFiles: seq<(string, string)> :=
    [("macro_data.json", "macro_data"), ("earnings_data.json", "earnings_data"), ("news_data.json", "news_data"),
     ("calendar_events.json", "calendar_events"), ("fomc_events.json", "fomc_events"),
     ("market_summary.json", "market_summary")]

  /** A file mapping whose keys are distinct source keys. */
  predicate SourceMapping(mapping: seq<(string, string)>) {
    (forall i :: 0 <= i < |mapping| ==> mapping[i].1 in SourceKeys)
    && forall i, j :: 0 <= i < j < |mapping| ==> mapping[i].1 != mapping[j].1
  }

  /**
   * `_load_from_processed_json` and `_load_direct_json_files`: the key of
   * each mapped file that was read, with its contents, in mapping order.
   */
  function JsonLoaded(mapping: seq<(string, string)>, files: JsonFiles): (loaded: seq<(string, Value)>)
    ensures |loaded| <= |mapping|
  {
    if |mapping| == 0 then []
    else
      var last := mapping[|mapping| - 1];
      JsonLoaded(mapping[..|mapping| - 1], files) + (if last.0 in files then [(last.1, files[last.0])] else [])
  }

  /**
   * Each entry comes from a mapped file that was read, each file read
   * gives its entry, and distinct keys in the mapping give a dict.
   */
  lemma {:induction false} JsonLoadedSpec(mapping: seq<(string, string)>, files: JsonFiles)
    ensures forall p :: p in JsonLoaded(mapping, files) ==>
      exists j :: 0 <= j < |mapping| && mapping[j].0 in files && p == (mapping[j].1, files[mapping[j].0])
    ensures forall j :: 0 <= j < |mapping| && mapping[j].0 in files ==>
      (mapping[j].1, files[mapping[j].0]) in JsonLoaded(mapping, files)
    ensures SourceMapping(mapping) ==> DistinctKeys(JsonLoaded(mapping, files))
  {
    if |mapping| > 0 {
      var init := mapping[..|mapping| - 1];
      var last := mapping[|mapping| - 1];
      JsonLoadedSpec(init, files);
      var before := JsonLoaded(init, files);
      var loaded := JsonLoaded(mapping, files);
      assert forall i :: 0 <= i < |before| ==> loaded[i] == before[i];
      assert forall j :: 0 <= j < |init| ==> init[j] == mapping[j];
      forall p | p in loaded
        ensures exists j :: 0 <= j < |mapping| && mapping[j].0 in files && p == (mapping[j].1, files[mapping[j].0])
      {
        if p in before {
          var j :| 0 <= j < |init| && init[j].0 in files && p == (init[j].1, files[init[j].0]);
        } else {
          assert p == (last.1, files[last.0]);
        }
      }
      if SourceMapping(mapping) {
        assert SourceMapping(init);
        forall i, k | 0 <= i < k < |loaded| ensures loaded[i].0 != loaded[k].0 {
          if k == |before| {
            assert before[i] in before;
            var j :| 0 <= j < |init| && init[j].0 in files && before[i] == (init[j].1, files[init[j].0]);
            assert loaded[k].0 == mapping[|mapping| - 1].1;
          }
        }
      }
    }
  }

  lemma MappingsOfSources()
    ensures SourceMapping(ProcessedFiles) && SourceMapping(DirectFiles)
  {
  }

  /** The value a file mapping gives `key`, if its file was read. */
  function JsonValue(mapping: seq<(string, string)>, files: JsonFiles, key: string): Option<Value>
    requires SourceMapping(mapping)
  {
    JsonLoadedSpec(mapping, files);
    Lookup(JsonLoaded(mapping, files), key)
  }

  /** `data.get(key, default)` */
  function GetOr(data: map<string, Value>, key: string, default: Value): Value {
    if key in data then data[key] else default
  }

  /**
   * `_load_from_json_bundle()`: the six keys taken from the bundle object,
   * each with its default when absent; the empty sources when the file
   * cannot be read as an object.
   */
  function BundleSources(bundle: Option<map<string, Value>>): (s: Sources)
    ensures s.Keys == SourceKeys
    ensures bundle.None? ==> s == EmptySources()
    ensures bundle.Some? ==> forall k :: k in SourceKeys ==> s[k] == GetOr(bundle.value, k, EmptySources()[k])
  {
    if bundle.None? then EmptySources()
    else
      var data := bundle.value;
      map["macro_data" := GetOr(data, "macro_data", Items([])),
          "earnings_data" := GetOr(data, "earnings_data", Items([])),
          "news_data" := GetOr(data, "news_data", Items([])),
          "calendar_events" := GetOr(data, "calendar_events", Items([])),
          "fomc_events" := GetOr(data, "fomc_events", Items([])),
          "market_summary" := GetOr(data, "market_summary", Object(map[]))]
  }

  /**
   * The source path: a directory with what each of its locations yields
   * (the scraper sub-directories at its root, a `te_scraper_output`
   * directory, a `processed` directory, an `economic_news` directory with
   * the articles of its JSON files, and the JSON files at its root), a
   * JSON bundle file (None when it cannot be read as an object), or any
   * other path.
   */
  datatype SourcePath =
    | Directory(root: TeDirs, legacy: Option<TeDirs>, processed: Option<JsonFiles>,
                economicNews: Option<seq<Entry>>, direct: JsonFiles)
    | JsonBundle(bundle: Option<map<string, Value>>)
    | OtherPath

  /** The news from DynamoDB as a source value. */
  function DynamoValue(scan: Option<seq<DynamoItem>>): Value {
    Items(Articles(DynamoNews(scan)))
  }

  /** A loaded dict over source keys. */
  predicate Keyed(d: seq<(string, Value)>) {
    DistinctKeys(d) && forall i :: 0 <= i < |d| ==> d[i].0 in SourceKeys
  }

  /** A loaded dict without news. */
  predicate NoNews(d: seq<(string, Value)>) {
    forall i :: 0 <= i < |d| ==> d[i].0 != "news_data"
  }

  /**
   * A directory's locations once read: the dicts of the scraper output at
   * the root, of `te_scraper_output`, of `processed`, the articles of
   * `economic_news`, and the dict of the JSON files at the root.
   */
  datatype DirYields = DirYields(
    root: seq<(string, Value)>,
    legacy: Option<seq<(string, Value)>>,
    processed: Option<seq<(string, Value)>>,
    economicNews: Option<seq<Entry>>,
    direct: seq<(string, Value)>)

  /** The source path once its locations are read. */
  datatype Shape = Dir(found: DirYields) | Bundle(sources: Sources) | Other

  predicate WellFormed(shape: Shape) {
    match shape
    case Dir(y) =>
      Keyed(y.root) && NoNews(y.root) && Keyed(y.direct)
      && (y.legacy.Some? ==> Keyed(y.legacy.value) && NoNews(y.legacy.value))
      && (y.processed.Some? ==> Keyed(y.processed.value) && NoNews(y.processed.value))
    case Bundle(sources) => sources.Keys == SourceKeys
    case Other => true
  }

  lemma TeDataShape(dirs: TeDirs)
    ensures Keyed(TeData(dirs)) && NoNews(TeData(dirs))
  {
  }

  lemma JsonLoadedShape(mapping: seq<(string, string)>, files: JsonFiles)
    requires SourceMapping(mapping)
    ensures Keyed(JsonLoaded(mapping, files))
    ensures (forall j :: 0 <= j < |mapping| ==> mapping[j].1 != "news_data") ==> NoNews(JsonLoaded(mapping, files))
  {
    JsonLoadedSpec(mapping, files);
    var loaded := JsonLoaded(mapping, files);
    forall i | 0 <= i < |loaded| ensures loaded[i].0 in SourceKeys {
      assert loaded[i] in loaded;
    }
    if forall j :: 0 <= j < |mapping| ==> mapping[j].1 != "news_data" {
      forall i | 0 <= i < |loaded| ensures loaded[i].0 != "news_data" {
        assert loaded[i] in loaded;
      }
    }
  }

  /** What `load_all_sources` reads at each location of the path. */
  function ShapeOf(path: SourcePath): (shape: Shape)
    ensures WellFormed(shape)
  {
    match path
    case Directory(root, legacy, processed, economicNews, direct) =>
      MappingsOfSources();
      TeDataShape(root);
      assert legacy.Some? ==> Keyed(TeData(legacy.value)) && NoNews(TeData(legacy.value)) by {
        if legacy.Some? { TeDataShape(legacy.value); }
      }
      assert processed.Some? ==> Keyed(JsonLoaded(ProcessedFiles, processed.value))
                                 && NoNews(JsonLoaded(ProcessedFiles, processed.value)) by {
        if processed.Some? { JsonLoadedShape(ProcessedFiles, processed.value); }
      }
      JsonLoadedShape(DirectFiles, direct);
      Dir(DirYields(TeData(root), if legacy.Some? then Some(TeData(legacy.value)) else None,
                    if processed.Some? then Some(JsonLoaded(ProcessedFiles, processed.value)) else None,
                    economicNews, JsonLoaded(DirectFiles, direct)))
    case JsonBundle(bundle) => Bundle(BundleSources(bundle))
    case OtherPath => Other
  }

  /** Merging a dict over source keys keeps the source keys. */
  lemma KeyedMerge(s: Sources, d: seq<(string, Value)>)
    requires s.Keys == SourceKeys && Keyed(d)
    ensures Update(s, d).Keys == SourceKeys && FillMissing(s, d).Keys == SourceKeys
  {
    var m := AsMap(d);
    forall k | k in m ensures k in SourceKeys {
      var i :| 0 <= i < |d| && d[i].0 == k;
    }
  }

  /** The scraper outputs and `processed`: the root's dict over `s0`, then the others filling gaps. */
  function GatheredFrom(s0: Sources, y: DirYields): Sources
    requires WellFormed(Dir(y))
  {
    var s1 := Update(s0, y.root);
    var s2 := if y.legacy.Some? then FillMissing(s1, y.legacy.value) else s1;
    if y.processed.Some? then FillMissing(s2, y.processed.value) else s2
  }

  /** The sources once the scraper outputs and `processed` are read. */
  function Gathered(shape: Shape): (s: Sources)
    requires WellFormed(shape)
    ensures s.Keys == SourceKeys
  {
    var s0 := EmptySources();
    if !shape.Dir? then s0
    else
      var y := shape.found;
      KeyedMerge(s0, y.root);
      var s1 := Update(s0, y.root);
      var s2 := if y.legacy.Some? then FillMissing(s1, y.legacy.value) else s1;
      assert s2.Keys == SourceKeys by {
        if y.legacy.Some? { KeyedMerge(s1, y.legacy.value); }
      }
      assert y.processed.Some? ==> FillMissing(s2, y.processed.value).Keys == SourceKeys by {
        if y.processed.Some? { KeyedMerge(s2, y.processed.value); }
      }
      GatheredFrom(s0, y)
  }

  /** DynamoDB when enabled, then `economic_news`, each only while there is no news. */
  function WithNews(s: Sources, economicNews: Option<seq<Entry>>, loadNews: bool, dynamo: Value): (r: Sources)
    ensures "news_data" in s ==> r.Keys == s.Keys
  {
    var s4 := if loadNews && !Filled(s, "news_data") then s["news_data" := dynamo] else s;
    if economicNews.Some? && !Filled(s4, "news_data")
    then s4["news_data" := Items(economicNews.value)] else s4
  }

  /** The `economic_news` articles a shape offers. */
  function EconomicNews(shape: Shape): Option<seq<Entry>> {
    if shape.Dir? then shape.found.economicNews else None
  }

  /** A bundle replaces everything; a directory's root JSON files fill what is left. */
  function Finished(s: Sources, shape: Shape): Sources
    requires WellFormed(shape)
  {
    match shape
    case Bundle(sources) => sources
    case Dir(y) => FillMissing(s, y.direct)
    case Other => s
  }

  /**
   * The steps of `load_all_sources` on what the locations yielded: the
   * empty sources, updated with the scraper output at the root, then
   * filled (never overwriting a truthy value) from `te_scraper_output`,
   * `processed`, DynamoDB when enabled, and `economic_news`; a JSON bundle
   * replaces everything; last the JSON files at the root fill what is left.
   */
  function Assembled(shape: Shape, loadNews: bool, dynamo: Value): Sources
    requires WellFormed(shape)
  {
    Finished(WithNews(Gathered(shape), EconomicNews(shape), loadNews, dynamo), shape)
  }

  /** `load_all_sources()` for a path, with `scan` what the DynamoDB table yields. */
  function LoadedSources(path: SourcePath, loadNews: bool, scan: Option<seq<DynamoItem>>): Sources {
    Assembled(ShapeOf(path), loadNews, DynamoValue(scan))
  }

  // ---------------------------------------------------------------------------
  // ClosingBriefingDataLoader

  class ClosingBriefingDataLoader {
    const sourcePath: SourcePath
    const loadNewsFromDynamodb: bool
    var dataCache: Sources

    constructor (sourcePath: SourcePath, loadNewsFromDynamodb: bool)
      ensures this.sourcePath == sourcePath && this.loadNewsFromDynamodb == loadNewsFromDynamodb
      ensures dataCache == map[]
    {
      this.sourcePath := sourcePath;
      this.loadNewsFromDynamodb := loadNewsFromDynamodb;
      dataCache := map[];
    }

    /** `load_all_sources()`, with `scan` what the DynamoDB table yields (None when the scan raises). */
    method LoadAllSources(scan: Option<seq<DynamoItem>>) returns (sources: Sources)
      modifies this
      ensures sources == LoadedSources(sourcePath, loadNewsFromDynamodb, scan)
      ensures dataCache == sources
    {
      ghost var shape := ShapeOf(sourcePath);
      MappingsOfSources();
      sources := LoadScraperOutputs();
      sources := MergeNews(sources, scan);
      ghost var withNews := sources;
      if sourcePath.JsonBundle? {
        sources := BundleSources(sourcePath.bundle);
      }
      if sourcePath.Directory? {
        var direct := LoadJsonFiles(DirectFiles, sourcePath.direct);
        JsonLoadedShape(DirectFiles, sourcePath.direct);
        sources := MergeMissing(sources, direct);
      }
      assert sources == Finished(withNews, shape);
      dataCache := sources;
    }

    /**
     * The first part of `load_all_sources()`: the empty sources, updated
     * with the scraper output at the root, then merged with
     * `te_scraper_output` and `processed`.
     */
    method LoadScraperOutputs() returns (sources: Sources)
      ensures sources == Gathered(ShapeOf(sourcePath))
    {
      MappingsOfSources();
      sources := EmptySources();
      if sourcePath.Directory? {
        var root := LoadFromTeScraper(sourcePath.root);
        sources := sources + AsMap(root);
        if sourcePath.legacy.Some? {
          var loaded := LoadFromTeScraper(sourcePath.legacy.value);
          sources := MergeMissing(sources, loaded);
        }
        if sourcePath.processed.Some? {
          var processed := LoadJsonFiles(ProcessedFiles, sourcePath.processed.value);
          JsonLoadedShape(ProcessedFiles, sourcePath.processed.value);
          sources := MergeMissing(sources, processed);
        }
      }
    }

    /**
     * The news part of `load_all_sources()`: DynamoDB when enabled, then
     * `economic_news`, each only while `sources` has no news.
     */
    method MergeNews(gathered: Sources, scan: Option<seq<DynamoItem>>) returns (sources: Sources)
      ensures sources == WithNews(gathered, EconomicNews(ShapeOf(sourcePath)), loadNewsFromDynamodb, DynamoValue(scan))
    {
      sources := gathered;
      ghost var dynamo := DynamoValue(scan);
      ghost var econ := EconomicNews(ShapeOf(sourcePath));
      assert econ == if sourcePath.Directory? then sourcePath.economicNews else None;
      if loadNewsFromDynamodb && !Filled(sources, "news_data") {
        var news := LoadNewsFromDynamodb(scan);
        sources := sources["news_data" := Items(Articles(news))];
      }
      ghost var s4 := if loadNewsFromDynamodb && !Filled(gathered, "news_data") then gathered["news_data" := dynamo] else gathered;
      assert sources == s4;
      if sourcePath.Directory? && sourcePath.economicNews.Some? && !Filled(sources, "news_data") {
        sources := sources["news_data" := Items(sourcePath.economicNews.value)];
      }
      assert sources == if econ.Some? && !Filled(s4, "news_data") then s4["news_data" := Items(econ.value)] else s4;
    }

    /** `_load_from_te_scraper(dir)` */
    method LoadFromTeScraper(dirs: TeDirs) returns (loaded: seq<(string, Value)>)
      ensures loaded == TeData(dirs)
    {
      loaded := [];
      if dirs.calendar.Some? {
        loaded := loaded + [("calendar_events", Items(dirs.calendar.value))];
      }
      if dirs.indicators.Some? {
        loaded := loaded + [("macro_data", Items(dirs.indicators.value))];
      }
      if dirs.fomcStems.Some? {
        var events := LoadFomcMetadata(dirs.fomcStems.value);
        loaded := loaded + [("fomc_events", Items(Meetings(events)))];
      }
    }

    /** `_load_fomc_metadata(dir)` over the sorted PDF stems. */
    method LoadFomcMetadata(stems: seq<string>) returns (events: seq<FomcEvent>)
      ensures events == FomcEvents(stems)
    {
      events := [];
      for i := 0 to |stems|
        invariant events == FomcEvents(stems[..i])
      {
        assert stems[..i + 1][..i] == stems[..i];
        var event := FomcEventOf(stems[i]);
        if event.Some? {
          events := events + [event.value];
        }
      }
      assert stems[..|stems|] == stems;
    }

    /** The file-mapping loop of `_load_from_processed_json` and `_load_direct_json_files`. */
    method LoadJsonFiles(mapping: seq<(string, string)>, files: JsonFiles) returns (loaded: seq<(string, Value)>)
      ensures loaded == JsonLoaded(mapping, files)
    {
      loaded := [];
      for i := 0 to |mapping|
        invariant loaded == JsonLoaded(mapping[..i], files)
      {
        assert mapping[..i + 1][..i] == mapping[..i];
        var (name, key) := mapping[i];
        if name in files {
          loaded := loaded + [(key, files[name])];
        }
      }
      assert mapping[..|mapping|] == mapping;
    }

    /** `_load_news_from_dynamodb()` after the scan: convert, keep headlined items, sort, keep 30. */
    method LoadNewsFromDynamodb(scan: Option<seq<DynamoItem>>) returns (news: seq<NewsItem>)
      ensures news == DynamoNews(scan)
    {
      if scan.None? {
        return [];
      }
      var items := scan.value;
      var kept: seq<NewsItem> := [];
      for i := 0 to |items|
        invariant kept == Headlined(items[..i])
      {
        assert items[..i + 1][..i] == items[..i];
        var item := items[i];
        var tickers := item.tickers.UnwrapOr([]);
        var category := CategorizeNewsByTickers(tickers);
        var n := NewsItem(item.title.UnwrapOr(""), item.provider.UnwrapOr("Yahoo Finance"), category,
                          item.title.UnwrapOr(""), "", tickers, item.publishEtIso.UnwrapOr(""), DefaultRelevance,
                          item.url.UnwrapOr(""), tickers);
        if n.headline != "" {
          kept := kept + [n];
        }
      }
      assert items[..|items|] == items;
      var sorted := KeySort.SortDesc(kept, NewsKey, KeyLess);
      news := if |sorted| <= NewsLimit then sorted else sorted[..NewsLimit];
    }

    /** `_categorize_news_by_tickers(tickers)` */
    method CategorizeNewsByTickers(tickers: seq<string>) returns (category: string)
      ensures category == TickerCategory(tickers)
    {
      if |tickers| == 0 {
        return "sector";
      }
      for i := 0 to |tickers|
        invariant FirstKnownCategory(tickers) == FirstKnownCategory(tickers[i..])
      {
        assert tickers[i..][1..] == tickers[i + 1..];
        var tickerUpper := Upper(tickers[i]);
        if tickerUpper in TechTickers {
          return "company";
        } else if tickerUpper in FinancialTickers {
          return "sector";
        } else if tickerUpper in EnergyTickers {
          return "sector";
        }
      }
      return "company";
    }

    /** `get_cached_data()` */
    method GetCachedData() returns (data: Sources)
      ensures data == dataCache
    {
      data := dataCache;
    }
  }

  // ---------------------------------------------------------------------------
  // What load_all_sources promises

  /** A location offers a non-empty value. */
  predicate Offers(offer: Option<Value>) {
    offer.Some? && Truthy(offer.value)
  }

  /** One location consulted: its value is taken when the current one is falsy. */
  function Consult(offer: Option<Value>, current: Value): Value {
    if offer.Some? && !Truthy(current) then offer.value else current
  }

  /** The value left after consulting the locations in order, starting from `v`. */
  function AfterAll(offers: seq<Option<Value>>, v: Value): Value {
    if |offers| == 0 then v else AfterAll(offers[1..], Consult(offers[0], v))
  }

  /**
   * Starting from an empty value, the result is non-empty exactly when
   * some location offers a non-empty value, and then it is the first such
   * value: later locations never overwrite it.
   */
  lemma FirstOfferWins(offers: seq<Option<Value>>, v: Value)
    requires !Truthy(v)
    ensures Truthy(AfterAll(offers, v)) <==> exists i :: 0 <= i < |offers| && Offers(offers[i])
    ensures forall i :: 0 <= i < |offers| && Offers(offers[i]) && (forall j :: 0 <= j < i ==> !Offers(offers[j])) ==>
      AfterAll(offers, v) == offers[i].value
  {
    SomeOfferTruthy(offers, v);
    FirstOfferTaken(offers, v);
  }

  lemma {:induction false} SomeOfferTruthy(offers: seq<Option<Value>>, v: Value)
    requires !Truthy(v)
    ensures Truthy(AfterAll(offers, v)) <==> exists i :: 0 <= i < |offers| && Offers(offers[i])
  {
    if |offers| > 0 {
      var next := Consult(offers[0], v);
      if Offers(offers[0]) {
        TruthyStays(offers[1..], next);
      } else {
        SomeOfferTruthy(offers[1..], next);
        if exists i :: 0 <= i < |offers| && Offers(offers[i]) {
          var i :| 0 <= i < |offers| && Offers(offers[i]);
          assert offers[1..][i - 1] == offers[i];
        }
      }
    }
  }

  lemma {:induction false} FirstOfferTaken(offers: seq<Option<Value>>, v: Value)
    requires !Truthy(v)
    ensures forall i :: 0 <= i < |offers| && Offers(offers[i]) && (forall j :: 0 <= j < i ==> !Offers(offers[j])) ==>
      AfterAll(offers, v) == offers[i].value
  {
    if |offers| > 0 {
      var next := Consult(offers[0], v);
      if Offers(offers[0]) {
        TruthyStays(offers[1..], next);
      } else {
        FirstOfferTaken(offers[1..], next);
        forall i | 0 <= i < |offers| && Offers(offers[i]) && (forall j :: 0 <= j < i ==> !Offers(offers[j]))
          ensures AfterAll(offers, v) == offers[i].value
        {
          assert offers[1..][i - 1] == offers[i];
          assert forall j :: 0 <= j < i - 1 ==> offers[1..][j] == offers[j + 1];
        }
      }
    }
  }


  /** A non-empty value is kept whatever is consulted after it. */
  lemma {:induction false} TruthyStays(offers: seq<Option<Value>>, v: Value)
    requires Truthy(v)
    ensures AfterAll(offers, v) == v
  {
    if |offers| > 0 {
      TruthyStays(offers[1..], v);
    }
  }

  /** What each location of a directory offers `key`, in the order `load_all_sources` consults them. */
  function Offered(y: DirYields, loadNews: bool, dynamo: Value, key: string): seq<Option<Value>>
    requires WellFormed(Dir(y))
  {
    [Lookup(y.root, key),
     if y.legacy.Some? then Lookup(y.legacy.value, key) else None,
     if y.processed.Some? then Lookup(y.processed.value, key) else None,
     if key == "news_data" && loadNews then Some(dynamo) else None,
     if key == "news_data" && y.economicNews.Some? then Some(Items(y.economicNews.value)) else None,
     Lookup(y.direct, key)]
  }

  /** The six source keys are exactly the keys of the result. */
  lemma AssembledKeys(shape: Shape, loadNews: bool, dynamo: Value)
    requires WellFormed(shape)
    ensures Assembled(shape, loadNews, dynamo).Keys == SourceKeys
  {
  }

  /** A JSON bundle replaces everything the other locations offered; DynamoDB plays no part. */
  lemma BundleReplaces(bundle: Option<map<string, Value>>, loadNews: bool, scan: Option<seq<DynamoItem>>)
    ensures LoadedSources(JsonBundle(bundle), loadNews, scan) == BundleSources(bundle)
    ensures bundle.None? ==> LoadedSources(JsonBundle(bundle), loadNews, scan) == EmptySources()
  {
  }

  /** A path that is neither a directory nor a JSON bundle holds the empty sources, with DynamoDB news when enabled. */
  lemma OtherPathSources(loadNews: bool, dynamo: Value)
    ensures Assembled(Other, loadNews, dynamo)
         == if loadNews then EmptySources()["news_data" := dynamo] else EmptySources()
  {
  }

  /** Merging a dict at one key is consulting what it offers there. */
  lemma FillAt(s: Sources, d: seq<(string, Value)>, key: string)
    requires DistinctKeys(d) && key in s
    ensures key in FillMissing(s, d) && FillMissing(s, d)[key] == Consult(Lookup(d, key), s[key])
  {
  }

  /** Updating with a dict at one key is consulting what it offers there, when the current value is falsy. */
  lemma UpdateAt(s: Sources, d: seq<(string, Value)>, key: string)
    requires DistinctKeys(d) && key in s && !Truthy(s[key])
    ensures key in Update(s, d) && Update(s, d)[key] == Consult(Lookup(d, key), s[key])
  {
  }

  lemma GatheredAt(s0: Sources, y: DirYields, key: string)
    requires WellFormed(Dir(y)) && key in s0 && !Truthy(s0[key])
    ensures key in GatheredFrom(s0, y)
    ensures GatheredFrom(s0, y)[key]
         == Consult(if y.processed.Some? then Lookup(y.processed.value, key) else None,
              Consult(if y.legacy.Some? then Lookup(y.legacy.value, key) else None,
                Consult(Lookup(y.root, key), s0[key])))
  {
    var s1 := Update(s0, y.root);
    UpdateAt(s0, y.root, key);
    var s2 := if y.legacy.Some? then FillMissing(s1, y.legacy.value) else s1;
    if y.legacy.Some? {
      FillAt(s1, y.legacy.value, key);
    }
    if y.processed.Some? {
      FillAt(s2, y.processed.value, key);
    }
  }

  lemma WithNewsAt(s: Sources, y: DirYields, loadNews: bool, dynamo: Value, key: string)
    requires WellFormed(Dir(y)) && key in s
    ensures var offers := Offered(y, loadNews, dynamo, key);
      var r := WithNews(s, y.economicNews, loadNews, dynamo);
      key in r && r[key] == Consult(offers[4], Consult(offers[3], s[key]))
  {
  }

  /**
   * For a directory, every source key ends up with the value of the first
   * location that offers a non-empty one (scraper output at the root, then
   * `te_scraper_output`, `processed`, DynamoDB, `economic_news`, the root
   * JSON files): a later location never overwrites an earlier one.
   */
  lemma DirectoryPrecedence(y: DirYields, loadNews: bool, dynamo: Value, key: string)
    requires WellFormed(Dir(y)) && key in SourceKeys
    ensures Assembled(Dir(y), loadNews, dynamo)[key] == AfterAll(Offered(y, loadNews, dynamo, key), EmptySources()[key])
  {
    var offers := Offered(y, loadNews, dynamo, key);
    var g := Gathered(Dir(y));
    GatheredAt(EmptySources(), y, key);
    var n := WithNews(g, y.economicNews, loadNews, dynamo);
    WithNewsAt(g, y, loadNews, dynamo, key);
    FillAt(n, y.direct, key);
    AfterAllSix(offers, EmptySources()[key]);
  }

  lemma AfterAllSix(offers: seq<Option<Value>>, v: Value)
    requires |offers| == 6
    ensures AfterAll(offers, v)
         == Consult(offers[5], Consult(offers[4], Consult(offers[3], Consult(offers[2], Consult(offers[1], Consult(offers[0], v))))))
  {
    var v1 := Consult(offers[0], v);
    var v2 := Consult(offers[1], v1);
    var v3 := Consult(offers[2], v2);
    var v4 := Consult(offers[3], v3);
    var v5 := Consult(offers[4], v4);
    var v6 := Consult(offers[5], v5);
    assert AfterAll(offers[5..], v5) == v6 by {
      assert offers[5..][1..] == [];
    }
    assert AfterAll(offers[4..], v4) == AfterAll(offers[5..], v5) by { assert offers[4..][1..] == offers[5..]; }
    assert AfterAll(offers[3..], v3) == AfterAll(offers[4..], v4) by { assert offers[3..][1..] == offers[4..]; }
    assert AfterAll(offers[2..], v2) == AfterAll(offers[3..], v3) by { assert offers[2..][1..] == offers[3..]; }
    assert AfterAll(offers[1..], v1) == AfterAll(offers[2..], v2) by { assert offers[1..][1..] == offers[2..]; }
  }

  /**
   * News comes first from DynamoDB (when enabled and it returns any), then
   * from the `economic_news` directory, then from `news_data.json`; the
   * scraper outputs and `processed` never supply it.
   */
  lemma NewsPrecedence(y: DirYields, loadNews: bool, dynamo: Value)
    requires WellFormed(Dir(y))
    ensures var news := Assembled(Dir(y), loadNews, dynamo)["news_data"];
      (loadNews && Truthy(dynamo) ==> news == dynamo)
      && (!(loadNews && Truthy(dynamo)) && y.economicNews.Some? && |y.economicNews.value| > 0
          ==> news == Items(y.economicNews.value))
      && (!Truthy(news) <==>
           !(loadNews && Truthy(dynamo))
           && !(y.economicNews.Some? && |y.economicNews.value| > 0)
           && !Offers(Lookup(y.direct, "news_data")))
  {
    var offers := Offered(y, loadNews, dynamo, "news_data");
    NewsOffers(y, loadNews, dynamo);
    DirectoryPrecedence(y, loadNews, dynamo, "news_data");
    assert EmptySources()["news_data"] == Items([]);
    LaterOffers(offers, Items([]));
  }

  /** When the first three locations offer nothing, the fourth, fifth and sixth decide in that order. */
  lemma LaterOffers(offers: seq<Option<Value>>, v: Value)
    requires |offers| == 6 && !Truthy(v)
    requires !Offers(offers[0]) && !Offers(offers[1]) && !Offers(offers[2])
    ensures Offers(offers[3]) ==> AfterAll(offers, v) == offers[3].value
    ensures !Offers(offers[3]) && Offers(offers[4]) ==> AfterAll(offers, v) == offers[4].value
    ensures !Truthy(AfterAll(offers, v)) <==> !Offers(offers[3]) && !Offers(offers[4]) && !Offers(offers[5])
  {
    FirstOfferWins(offers, v);
    if Offers(offers[3]) {
      assert forall j :: 0 <= j < 3 ==> !Offers(offers[j]);
    } else if Offers(offers[4]) {
      assert forall j :: 0 <= j < 4 ==> !Offers(offers[j]);
    } else if Offers(offers[5]) {
      assert forall j :: 0 <= j < 5 ==> !Offers(offers[j]);
    } else {
      assert forall j :: 0 <= j < 6 ==> !Offers(offers[j]);
    }
  }

  /** No scraper output and no `processed` file offers news. */
  lemma NewsOffers(y: DirYields, loadNews: bool, dynamo: Value)
    requires WellFormed(Dir(y))
    ensures var offers := Offered(y, loadNews, dynamo, "news_data");
      offers[0].None? && offers[1].None? && offers[2].None?
      && offers[3] == (if loadNews then Some(dynamo) else None)
      && offers[4] == (if y.economicNews.Some? then Some(Items(y.economicNews.value)) else None)
      && offers[5] == Lookup(y.direct, "news_data")
  {
    LookupAbsent(y.root, "news_data");
    if y.legacy.Some? { LookupAbsent(y.legacy.value, "news_data"); }
    if y.processed.Some? { LookupAbsent(y.processed.value, "news_data"); }
  }

  /** A dict without `key` offers nothing for it. */
  lemma LookupAbsent(d: seq<(string, Value)>, key: string)
    requires DistinctKeys(d) && forall i :: 0 <= i < |d| ==> d[i].0 != key
    ensures Lookup(d, key).None?
  {
  }
}
