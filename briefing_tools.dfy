/**
 * The data tools the briefing writer and the critic call
 * (closing_briefing/tools.py): `DataToolExecutor` dispatches a tool name to
 * a handler, every handler filters one loaded source list and creates one
 * reference per record it reports, and every reference created is appended
 * to the executor's log.
 *
 * Source records are flat JSON objects held as their string form; a key
 * that is missing stands for a missing or null value.  Float formatting and
 * date parsing are parameters (`Environment`).
 */
module BriefingTools {
  import opened Wrappers
  import opened PyStr
  import opened BriefingModels
  import VT = ValidationTypes
  import KS = KeySort
  import SeqUtil

  type Record = map<string, string>

  /** `record.get(key, default)` on a flat record. */
  function Lookup(r: Record, key: string, default: string): (v: string)
    ensures key in r ==> v == r[key]
    ensures key !in r ==> v == default
  {
    if key in r then r[key] else default
  }

  /** A tool argument as the model's JSON arguments decode it. */
  datatype Arg = AStr(s: string) | AInt(i: int) | ABool(b: bool) | AStrs(items: seq<string>) | ANull

  type Args = map<string, Arg>

  /** Python truthiness of an argument value. */
  predicate ArgTruthy(a: Arg) {
    match a
    case AStr(s) => s != ""
    case AInt(i) => i != 0
    case ABool(b) => b
    case AStrs(items) => |items| > 0
    case ANull => false
  }

  /** `args.get(key, default)` */
  function ArgOr(args: Args, key: string, default: Arg): Arg {
    if key in args then args[key] else default
  }

  /** One entry of `market_summary['indices']`: its record, or None when it is not an object. */
  datatype IndexEntry = IndexEntry(name: string, data: Option<Record>)

  datatype MarketSummary = MarketSummary(fields: Record, indices: seq<IndexEntry>)

  /** A news article: its flat fields plus its tag and ticker lists. */
  datatype Article = Article(fields: Record, tags: seq<string>, tickers: seq<string>)

  /** The loaded sources; `marketSummary` is None when the summary is empty. */
  datatype Sources = Sources(
    macro: seq<Record>,
    calendar: seq<Record>,
    news: seq<Article>,
    earnings: seq<Record>,
    fomc: seq<Record>,
    marketSummary: Option<MarketSummary>)

  /**
   * What the executor takes from the Python runtime: `strptime('%Y-%m-%d')`
   * as a day number, the current time in seconds, today's date text, and
   * the float formats the quotes use.
   */
  datatype Environment = Environment(
    parseDate: string -> Option<int>,
    nowSeconds: int,
    today: string,
    fixed2: string -> string,
    signed2: string -> string,
    revenue: string -> string)

  /**
   * One reported record: its output fields, the reference attached to it,
   * and its list-valued output fields (a news article's tags and tickers).
   */
  datatype Item = Item(fields: Record, reference: Option<Reference>, lists: map<string, seq<string>> := map[])

  /** A record a handler is about to report, with the arguments of the reference it will create. */
  datatype Draft = Draft(fields: Record, sourceType: string, sourceFile: string, quote: string,
                         provider: Option<string>, date: Option<string>, lists: map<string, seq<string>> := map[])

  datatype Data = Listed(items: seq<Item>) | Summary(fields: Record) | NoData

  datatype ToolError = UnknownTool(name: string) | Raised(exception: string)

  datatype ToolResult = Found(data: Data, references: seq<Reference>) | Failed(error: ToolError)

  /**
   * The `error` text of a failed call.  The source reports `str(e)`, the
   * exception's message; the model names the exception by its class and
   * does not model message texts.
   */
  function ErrorText(e: ToolError): string {
    match e
    case UnknownTool(name) => "Unknown tool: " + name
    case Raised(exception) => exception
  }

  /** `_create_reference`: the date falls back to the briefing date when it is empty. */
  function MakeRef(sourceType: string, sourceFile: string, quote: string, provider: Option<string>,
                   date: Option<string>, briefingDate: string): (r: Reference)
    ensures r.sourceType == sourceType && r.sourceFile == sourceFile && r.quote == quote
    ensures r.provider == provider
    ensures Truthy(date) ==> r.date == date
    ensures !Truthy(date) ==> r.date == Some(briefingDate)
  {
    Reference(sourceType, sourceFile, quote, provider, Some(if Truthy(date) then date.value else briefingDate))
  }

  // ---------------------------------------------------------------------------
  // Reporting records one by one

  /** A draft once its reference has been created. */
  function Reported(d: Draft, bd: string): (it: Item)
    ensures it.fields == d.fields && it.lists == d.lists && it.reference.Some?
  {
    Item(d.fields, Some(MakeRef(d.sourceType, d.sourceFile, d.quote, d.provider, d.date, bd)), d.lists)
  }

  /** A handler's per-record rule, with the references created. */
  function Drafted<X>(entry: X -> Option<Draft>, bd: string): X -> Option<Item> {
    x => if entry(x).Some? then Some(Reported(entry(x).value, bd)) else None
  }

  /** The items a handler reports, in source order: the records `entry` keeps. */
  function Emit<X>(xs: seq<X>, entry: X -> Option<Item>): (r: seq<Item>)
    ensures |r| <= |xs|
  {
    if |xs| == 0 then []
    else Emit(xs[..|xs| - 1], entry) + (match entry(xs[|xs| - 1]) case Some(it) => [it] case None => [])
  }

  /** The references attached to `items`, in order. */
  function RefsOf(items: seq<Item>): (refs: seq<Reference>)
    ensures |refs| <= |items|
  {
    if |items| == 0 then []
    else RefsOf(items[..|items| - 1]) + (match items[|items| - 1].reference case Some(r) => [r] case None => [])
  }

  lemma {:induction false} RefsOfAppend(a: seq<Item>, b: seq<Item>)
    ensures RefsOf(a + b) == RefsOf(a) + RefsOf(b)
    decreases |b|
  {
    if |b| > 0 {
      assert (a + b)[..|a + b| - 1] == a + b[..|b| - 1];
      RefsOfAppend(a, b[..|b| - 1]);
    } else {
      assert a + b == a;
    }
  }

  /** Items that all carry a reference give exactly one reference each. */
  lemma {:induction false} RefsOfReferenced(items: seq<Item>)
    requires forall k :: 0 <= k < |items| ==> items[k].reference.Some?
    ensures |RefsOf(items)| == |items|
    ensures forall k :: 0 <= k < |items| ==> RefsOf(items)[k] == items[k].reference.value
  {
    if |items| > 0 {
      RefsOfReferenced(items[..|items| - 1]);
    }
  }

  /** Every item reported was kept by `entry` from some record. */
  lemma {:induction false} EmitFrom<X>(xs: seq<X>, entry: X -> Option<Item>)
    ensures forall k :: 0 <= k < |Emit(xs, entry)| ==>
      exists i :: 0 <= i < |xs| && entry(xs[i]) == Some(Emit(xs, entry)[k])
  {
    if |xs| > 0 {
      var init := xs[..|xs| - 1];
      EmitFrom(init, entry);
      var r := Emit(xs, entry);
      var last := entry(xs[|xs| - 1]);
      assert r == Emit(init, entry) + (if last.Some? then [last.value] else []);
      forall k | 0 <= k < |r|
        ensures exists i :: 0 <= i < |xs| && entry(xs[i]) == Some(r[k])
      {
        if k < |Emit(init, entry)| {
          var i :| 0 <= i < |init| && entry(init[i]) == Some(Emit(init, entry)[k]);
          assert xs[i] == init[i] && r[k] == Emit(init, entry)[k];
        } else {
          assert last.Some? && r[k] == last.value;
          assert entry(xs[|xs| - 1]) == Some(r[k]);
        }
      }
      assert forall k :: 0 <= k < |r| ==> exists i :: 0 <= i < |xs| && entry(xs[i]) == Some(r[k]);
    } else {
      assert |Emit(xs, entry)| == 0;
    }
  }

  /** Nothing is reported exactly when `entry` keeps no record. */
  lemma {:induction false} EmitEmpty<X>(xs: seq<X>, entry: X -> Option<Item>)
    ensures Emit(xs, entry) == [] <==> forall i :: 0 <= i < |xs| ==> entry(xs[i]).None?
  {
    if |xs| > 0 {
      EmitEmpty(xs[..|xs| - 1], entry);
      assert forall i :: 0 <= i < |xs| - 1 ==> xs[..|xs| - 1][i] == xs[i];
    }
  }

  /** Emitting over a longer prefix only extends what was emitted. */
  lemma {:induction false} EmitPrefix<X>(xs: seq<X>, i: nat, entry: X -> Option<Item>)
    requires i <= |xs|
    ensures |Emit(xs[..i], entry)| <= |Emit(xs, entry)|
    ensures Emit(xs, entry)[..|Emit(xs[..i], entry)|] == Emit(xs[..i], entry)
    decreases |xs| - i
  {
    if i < |xs| {
      EmitPrefix(xs, i + 1, entry);
      assert xs[..i + 1][..i] == xs[..i];
    } else {
      assert xs[..i] == xs;
    }
  }

  /** One more record: its item, when `entry` drafts one, comes last. */
  lemma EmitDrafted<X>(xs: seq<X>, i: nat, entry: X -> Option<Draft>, bd: string)
    requires i < |xs|
    ensures Emit(xs[..i + 1], Drafted(entry, bd)) ==
      Emit(xs[..i], Drafted(entry, bd)) + (if entry(xs[i]).Some? then [Reported(entry(xs[i]).value, bd)] else [])
  {
    assert xs[..i + 1][..i] == xs[..i];
  }

  /** Once the first `i` records have emitted `n` items, the first `n` items are theirs. */
  lemma TakeEmitted<X>(xs: seq<X>, i: nat, entry: X -> Option<Item>, n: nat)
    requires i <= |xs| && |Emit(xs[..i], entry)| == n
    ensures Take(Emit(xs, entry), n) == Emit(xs[..i], entry)
  {
    EmitPrefix(xs, i, entry);
  }

  /** Where the capped loop ends: the cap is reached, or the whole list is read below it. */
  lemma TakeReached<X>(xs: seq<X>, i: nat, entry: X -> Option<Item>, n: nat)
    requires i <= |xs| && |Emit(xs[..i], entry)| <= n
    requires |Emit(xs[..i], entry)| == n || i == |xs|
    ensures Take(Emit(xs, entry), n) == Emit(xs[..i], entry)
  {
    if |Emit(xs[..i], entry)| == n {
      TakeEmitted(xs, i, entry, n);
    } else {
      assert xs[..i] == xs;
    }
  }

  /** `s[:n]` for a non-negative count. */
  function Take<T>(s: seq<T>, n: nat): (r: seq<T>)
    ensures |r| <= n && |r| <= |s|
    ensures |s| <= n ==> r == s
    ensures r == s[..|r|]
  {
    if |s| <= n then s else s[..n]
  }

  /** `s[:k]` for any integer `k`: a negative `k` drops that many elements from the end. */
  function PySliceTo<T>(s: seq<T>, k: int): (r: seq<T>)
    ensures |r| <= |s| && r == s[..|r|]
    ensures 0 <= k ==> |r| == if k < |s| then k else |s|
    ensures k < 0 ==> |r| == if |s| + k < 0 then 0 else |s| + k
  {
    if 0 <= k then (if k < |s| then s[..k] else s)
    else if |s| + k < 0 then [] else s[..|s| + k]
  }

  // ---------------------------------------------------------------------------
  // get_macro_indicators

  /** `indicator_names`: a list, the characters of a string, nothing when falsy; None when iterating it raises. */
  function NamesArg(a: Arg): Option<seq<string>> {
    match a
    case AStrs(items) => Some(items)
    case AStr(s) => Some(seq(|s|, i requires 0 <= i < |s| => [s[i]]))
    case _ => if ArgTruthy(a) then None else Some([])
  }

  /** `any(n.lower() in name.lower() for n in names)` */
  predicate AnyNameIn(name: string, names: seq<string>) {
    |names| > 0 && (Contains(Lower(name), Lower(names[0])) || AnyNameIn(name, names[1..]))
  }

  /** An empty request matches every indicator; otherwise some requested name must occur in it. */
  predicate NameRequested(name: string, names: seq<string>) {
    |names| == 0 || AnyNameIn(name, names)
  }

  /** The request matches exactly when some requested name is a case-insensitive substring. */
  lemma {:induction false} AnyNameInIff(name: string, names: seq<string>)
    ensures AnyNameIn(name, names) <==> exists k :: 0 <= k < |names| && Contains(Lower(name), Lower(names[k]))
  {
    if |names| > 0 {
      AnyNameInIff(name, names[1..]);
      if AnyNameIn(name, names[1..]) {
        var k :| 0 <= k < |names[1..]| && Contains(Lower(name), Lower(names[1..][k]));
        assert names[k + 1] == names[1..][k];
      }
      if exists k :: 0 <= k < |names| && Contains(Lower(name), Lower(names[k])) {
        var k :| 0 <= k < |names| && Contains(Lower(name), Lower(names[k]));
        if k > 0 {
          assert names[1..][k - 1] == names[k];
        }
      }
    }
  }

  function MacroQuote(ind: Record): string {
    var name := Lookup(ind, "name", "");
    var date := Lookup(ind, "date", "");
    name + ": " + Lookup(ind, "value", "None") + Lookup(ind, "unit", "")
    + (if date != "" then ", " + date else "")
  }

  /** What a missing field of a reported record is shown as: None for a number, empty for text, `[]` and `{}` for a list and an object. */
  function MissingAs(key: string): string {
    if key in {"value", "eps_actual", "eps_estimate", "revenue_actual", "revenue_estimate", "yoy_growth_pct"} then "None"
    else if key == "key_drivers" then "[]"
    else if key == "meta" then "{}"
    else ""
  }

  const MacroCopied: set<string> := {"name", "value", "unit", "date", "meta"}

  /**
   * One indicator of `get_macro_indicators`: reported when its name is
   * requested, with its name, value, unit, date and `meta` copied from the
   * record (None, empty, empty and `{}` when missing).
   */
  function MacroEntry(ind: Record, names: seq<string>): (r: Option<Draft>)
    ensures r.Some? <==> NameRequested(Lookup(ind, "name", ""), names)
    ensures r.Some? ==> (r.value.fields.Keys == MacroCopied
      && (forall k :: k in ind && k in r.value.fields ==> r.value.fields[k] == ind[k])
      && ("value" !in ind ==> r.value.fields["value"] == "None")
      && ("meta" !in ind ==> r.value.fields["meta"] == "{}"))
  {
    var name := Lookup(ind, "name", "");
    if !NameRequested(name, names) then None
    else
      var date := Lookup(ind, "date", "");
      Some(Draft(map k | k in MacroCopied :: Lookup(ind, k, MissingAs(k)),
                 "macro_data", "indicators_US.csv", MacroQuote(ind), None, Some(date)))
  }

  function MacroEntries(names: seq<string>): Record -> Option<Draft> {
    ind => MacroEntry(ind, names)
  }

  // ---------------------------------------------------------------------------
  // get_calendar_events

  /** `importance` or `category`: a string filter ('all' passes everything); any other value passes nothing. */
  function FilterArg(a: Arg): Option<string> {
    match a
    case AStr(s) => Some(s)
    case _ => None
  }

  predicate Passes(filter: Option<string>, value: string) {
    filter == Some("all") || filter == Some(value)
  }

  /** `days_ahead` as a number; None when comparing it with an int raises. */
  function DaysArg(a: Arg): Option<int> {
    match a
    case AInt(i) => Some(i)
    case ABool(b) => Some(if b then 1 else 0)
    case _ => None
  }

  /**
   * The date window: an event with a parseable date is dropped when it lies
   * more than `days` whole days after the base time or before it.  An empty
   * or unparseable date, or a `days_ahead` the comparison rejects, keeps it.
   */
  predicate InWindow(dateText: string, base: int, days: Option<int>, env: Environment) {
    dateText == "" || env.parseDate(dateText).None? || days.None?
    || (var t := env.parseDate(dateText).value * 86400;
        (t - base) / 86400 <= days.value && base <= t)
  }

  function CalendarQuote(ev: Record): string {
    var importance := Lookup(ev, "importance", "medium");
    var time := Lookup(ev, "time", "");
    Lookup(ev, "name", "") + ", " + Lookup(ev, "date", "")
    + (if time != "" then ", " + time else "")
    + (if importance != "" then ", importance: " + importance else "")
  }

  function CalendarEntry(ev: Record, importance: Option<string>, base: int, days: Option<int>,
                         env: Environment): (r: Option<Draft>)
    ensures r.Some? <==>
      Passes(importance, Lookup(ev, "importance", "medium")) && InWindow(Lookup(ev, "date", ""), base, days, env)
  {
    var evImportance := Lookup(ev, "importance", "medium");
    var date := Lookup(ev, "date", "");
    if !Passes(importance, evImportance) || !InWindow(date, base, days, env) then None
    else
      Some(Draft(map["name" := Lookup(ev, "name", ""), "date" := date, "time" := Lookup(ev, "time", ""),
                     "importance" := evImportance, "description" := Lookup(ev, "description", ""),
                     "category" := Lookup(ev, "category", "")],
                 "calendar_events", "calendar_US.csv", CalendarQuote(ev), None, Some(date)))
  }

  function CalendarEntries(importance: Option<string>, base: int, days: Option<int>,
                           env: Environment): Record -> Option<Draft> {
    ev => CalendarEntry(ev, importance, base, days, env)
  }

  /** The sort key of a reported item: `x.get('date', '')`. */
  function ItemDate(it: Item): string {
    Lookup(it.fields, "date", "")
  }

  // ---------------------------------------------------------------------------
  // get_news_articles

  /** `limit`: a number; None when `limit * 2` or the slice raises. */
  function LimitArg(a: Arg): Option<int> {
    match a
    case AInt(i) => Some(i)
    case ABool(b) => Some(if b then 1 else 0)
    case _ => None
  }

  /** How many items the news loop reports before it stops: it checks only after an append. */
  function NewsCap(limit: int): nat {
    if limit >= 1 then limit else 1
  }

  /**
   * One article of `get_news_articles`: reported when it has a headline and
   * passes the category filter, with its text fields copied, its `source` as
   * the provider, and its tags and tickers.
   */
  function NewsEntry(article: Article, category: Option<string>, bd: string): (r: Option<Draft>)
    ensures r.Some? <==>
      Passes(category, Lookup(article.fields, "category", "sector")) && Lookup(article.fields, "headline", "") != ""
    ensures r.Some? ==> (
      r.value.fields.Keys == {"headline", "provider", "category", "summary", "market_impact", "published_date"}
      && (forall k :: k in article.fields && k in r.value.fields && k != "provider" ==> r.value.fields[k] == article.fields[k])
      && r.value.provider == Some(r.value.fields["provider"]) && r.value.fields["provider"] == Lookup(article.fields, "source", "Unknown")
      && r.value.lists == map["tags" := article.tags, "tickers" := article.tickers])
  {
    var f := article.fields;
    var articleCategory := Lookup(f, "category", "sector");
    var headline := Lookup(f, "headline", "");
    if !Passes(category, articleCategory) || headline == "" then None
    else
      var provider := Lookup(f, "source", "Unknown");
      var published := Lookup(f, "published_date", bd);
      Some(Draft(map["headline" := headline, "provider" := provider, "category" := articleCategory,
                     "summary" := Lookup(f, "summary", ""), "market_impact" := Lookup(f, "market_impact", ""),
                     "published_date" := published],
                 "news_data", "news_articles.json", "\"" + headline + "\"", Some(provider), Some(published),
                 map["tags" := article.tags, "tickers" := article.tickers]))
  }

  function NewsEntries(category: Option<string>, bd: string): Article -> Option<Draft> {
    a => NewsEntry(a, category, bd)
  }

  /** The reported news: the kept articles among the first `2 * limit`, at most `NewsCap(limit)` of them. */
  function NewsItems(news: seq<Article>, category: Option<string>, limit: int, bd: string): seq<Item> {
    Take(Emit(PySliceTo(news, 2 * limit), Drafted(NewsEntries(category, bd), bd)), NewsCap(limit))
  }

  // ---------------------------------------------------------------------------
  // get_earnings_results

  /** `sector`: None when `.lower()` raises on it, Some(None) when it is falsy (no filter). */
  function SectorArg(a: Arg): Option<Option<string>> {
    match a
    case AStr(s) => Some(if s == "" then None else Some(s))
    case _ => if ArgTruthy(a) then None else Some(None)
  }

  function EarningsQuote(e: Record, env: Environment): string {
    var company := Lookup(e, "company_name", "");
    var ticker := Lookup(e, "ticker", "");
    var beatOrMiss := Lookup(e, "beat_or_miss", "");
    var parts := [if ticker != "" then company + " (" + ticker + ")" else company]
      + (if "eps_actual" in e then ["EPS $" + env.fixed2(e["eps_actual"])] else [])
      + (if "revenue_actual" in e then ["Revenue " + env.revenue(e["revenue_actual"])] else [])
      + (if beatOrMiss != "" then [beatOrMiss + " estimates"] else []);
    Join(", ", parts)
  }

  predicate SectorMatches(e: Record, sector: Option<string>) {
    sector.None? || Lower(Lookup(e, "sector", "")) == Lower(sector.value)
  }

  /** The formatted revenue of an earnings result: None when it has no revenue. */
  function RevenueFormatted(e: Record, env: Environment): string {
    if "revenue_actual" in e then env.revenue(e["revenue_actual"]) else "None"
  }

  const EarningsCopied: set<string> := {"company_name", "ticker", "eps_actual", "eps_estimate",
    "revenue_actual", "revenue_estimate", "yoy_growth_pct", "beat_or_miss", "sector", "key_drivers", "stock_reaction"}

  /**
   * One result of `get_earnings_results`: reported when it matches the sector
   * and the `beat_only` filter, with its fields copied (the numbers None and
   * `key_drivers` empty when missing) and its revenue formatted.
   */
  function EarningsEntry(e: Record, sector: Option<string>, beatOnly: bool, env: Environment,
                         bd: string): (r: Option<Draft>)
    ensures r.Some? <==> SectorMatches(e, sector) && (beatOnly ==> Lookup(e, "beat_or_miss", "") == "beat")
    ensures r.Some? ==> (r.value.fields.Keys == EarningsCopied + {"revenue_formatted"}
      && (forall k :: k in e && k in EarningsCopied ==> r.value.fields[k] == e[k])
      && r.value.fields["revenue_formatted"] == RevenueFormatted(e, env)
      && ("eps_actual" !in e ==> r.value.fields["eps_actual"] == "None")
      && ("key_drivers" !in e ==> r.value.fields["key_drivers"] == "[]"))
  {
    if !SectorMatches(e, sector) || (beatOnly && Lookup(e, "beat_or_miss", "") != "beat") then None
    else
      var copied := map k | k in EarningsCopied :: Lookup(e, k, MissingAs(k));
      Some(Draft(copied["revenue_formatted" := RevenueFormatted(e, env)],
                 "earnings_data", "earnings_data.json", EarningsQuote(e, env), None, Some(bd)))
  }

  function EarningsEntries(sector: Option<string>, beatOnly: bool, env: Environment, bd: string): Record -> Option<Draft> {
    e => EarningsEntry(e, sector, beatOnly, env, bd)
  }

  // ---------------------------------------------------------------------------
  // get_fomc_events

  function FomcEntry(ev: Record, includeSnippets: bool): (r: Option<Draft>)
    ensures r.Some?
  {
    var title := Lookup(ev, "title", "");
    var date := Lookup(ev, "date", "");
    var snippet := if includeSnippets then Lookup(ev, "text_snippet", "") else "";
    var fields := map["title" := title, "date" := date, "type" := Lookup(ev, "type", "press_conference")];
    Some(Draft(if includeSnippets && snippet != "" then fields["text_snippet" := snippet] else fields,
               "fomc_events", "fomc_press_conferences/", title + ", " + date, None, Some(date)))
  }

  function FomcEntries(includeSnippets: bool): Record -> Option<Draft> {
    ev => FomcEntry(ev, includeSnippets)
  }

  // ---------------------------------------------------------------------------
  // get_market_summary

  /** The quote of one index that is an object: `name: close (change%)`. */
  function IndexQuotes(indices: seq<IndexEntry>, env: Environment): (qs: seq<string>)
    ensures |qs| <= |indices|
  {
    if |indices| == 0 then []
    else
      var e := indices[|indices| - 1];
      IndexQuotes(indices[..|indices| - 1], env)
      + (match e.data
         case Some(d) => [e.name + ": " + env.fixed2(Lookup(d, "close", "0")) + " (" + env.signed2(Lookup(d, "change_pct", "0")) + "%)"]
         case None => [])
  }

  function SummaryRef(ms: MarketSummary, env: Environment, bd: string): Option<Reference> {
    var quotes := IndexQuotes(ms.indices, env);
    if |quotes| == 0 then None
    else Some(MakeRef("market_summary", "market_summary.json", Join("; ", Take(quotes, 3)), None,
                      Some(Lookup(ms.fields, "date", bd)), bd))
  }

  /** The market figures `_get_market_summary` passes through, `None` when missing. */
  const SummaryFigures: seq<string> := ["vix", "dollar_index", "us_10y_yield", "crude_oil_wti", "gold"]

  /** The record a key list copies from `fields`: each key present there, with its value. */
  function Copied(fields: Record, keys: seq<string>): (r: Record)
    ensures forall k :: k in r <==> k in keys && k in fields
    ensures forall k :: k in r ==> r[k] == fields[k]
  {
    map k | k in fields && k in keys :: fields[k]
  }

  /**
   * The `data` of `_get_market_summary`: the date (the briefing date when
   * missing), the indices (`{}` when missing), the five market figures, and
   * the sectors (`{}` when missing) when they are asked for.
   */
  function SummaryData(ms: MarketSummary, includeSectors: bool, bd: string): (r: Record)
    ensures "date" in r && r["date"] == Lookup(ms.fields, "date", bd)
    ensures "indices" in r && r["indices"] == Lookup(ms.fields, "indices", "{}")
    ensures "sectors" in r <==> includeSectors
    ensures includeSectors ==> r["sectors"] == Lookup(ms.fields, "sectors", "{}")
    ensures forall k :: k in SummaryFigures ==> (k in r <==> k in ms.fields) && (k in r ==> r[k] == ms.fields[k])
    ensures forall k :: k in r ==> k in SummaryFigures || k == "date" || k == "indices" || k == "sectors"
  {
    var fields := Copied(ms.fields, SummaryFigures)["date" := Lookup(ms.fields, "date", bd)]
                                                    ["indices" := Lookup(ms.fields, "indices", "{}")];
    if includeSectors then fields["sectors" := Lookup(ms.fields, "sectors", "{}")] else fields
  }

  // ---------------------------------------------------------------------------
  // search_data

  /** What a search gathers: reported items, returned references, and every reference created. */
  datatype Gathered = Gathered(items: seq<Item>, returned: seq<Reference>, created: seq<Reference>)

  function Plus(a: Gathered, b: Gathered): Gathered {
    Gathered(a.items + b.items, a.returned + b.returned, a.created + b.created)
  }

  /** What a pass gathers record by record, joined in order. */
  function Concat(gs: seq<Gathered>): Gathered {
    if |gs| == 0 then Gathered([], [], []) else Plus(Concat(gs[..|gs| - 1]), gs[|gs| - 1])
  }

  lemma ConcatStep(gs: seq<Gathered>, i: int)
    requires 0 <= i < |gs|
    ensures Concat(gs[..i + 1]) == Plus(Concat(gs[..i]), gs[i])
  {
    assert gs[..i + 1][..i] == gs[..i];
  }

  /** Every reference returned was also created. */
  predicate Recorded(g: Gathered) {
    forall r :: r in g.returned ==> r in g.created
  }

  /** `query`: a string, lower-cased; None when `.lower()` raises on it. */
  function QueryArg(a: Arg): Option<string> {
    match a
    case AStr(s) => Some(Lower(s))
    case _ => None
  }

  /** What the macro pass gathers for one indicator: the macro tool's run for its name, on a match. */
  function MacroMatch(x: Record, q: string, all: seq<Record>, bd: string): (g: Gathered)
    ensures g.returned == g.created
  {
    var name := Lookup(x, "name", "");
    if Contains(Lower(name), q) then
      var inner := Emit(all, Drafted(MacroEntries([name]), bd));
      Gathered(inner, RefsOf(inner), RefsOf(inner))
    else Gathered([], [], [])
  }

  /** What each indicator gathers in the macro pass, in order. */
  function MacroMatches(xs: seq<Record>, q: string, all: seq<Record>, bd: string): (ms: seq<Gathered>)
    ensures |ms| == |xs|
  {
    if |xs| == 0 then [] else MacroMatches(xs[..|xs| - 1], q, all, bd) + [MacroMatch(xs[|xs| - 1], q, all, bd)]
  }

  lemma {:induction false} MacroMatchesAt(xs: seq<Record>, q: string, all: seq<Record>, bd: string, i: int)
    requires 0 <= i < |xs|
    ensures MacroMatches(xs, q, all, bd)[i] == MacroMatch(xs[i], q, all, bd)
  {
    if i < |xs| - 1 {
      MacroMatchesAt(xs[..|xs| - 1], q, all, bd, i);
    }
  }

  /** The macro pass: every indicator whose name contains the query repeats the macro tool for that name. */
  function SearchMacro(xs: seq<Record>, q: string, all: seq<Record>, bd: string): Gathered {
    Concat(MacroMatches(xs, q, all, bd))
  }

  predicate NewsHit(a: Article, q: string) {
    Contains(Lower(Lookup(a.fields, "headline", "")), q)
    || Contains(Lower(Join(" ", a.tags)), q) || Contains(Lower(Join(" ", a.tickers)), q)
  }

  function SearchNewsDraft(a: Article, bd: string): Draft {
    var headline := Lookup(a.fields, "headline", "");
    var provider := Lookup(a.fields, "source", "Unknown");
    Draft(map["type" := "news", "headline" := headline, "provider" := provider],
          "news_data", "news_articles.json", "\"" + headline + "\"", Some(provider),
          Some(Lookup(a.fields, "published_date", bd)))
  }

  /** The news pass: one reference per article whose headline, tags or tickers contain the query. */
  function SearchNews(xs: seq<Article>, q: string, bd: string): (g: Gathered)
    ensures g.returned == g.created && |g.items| == |g.created|
  {
    if |xs| == 0 then Gathered([], [], [])
    else
      var g := SearchNews(xs[..|xs| - 1], q, bd);
      var a := xs[|xs| - 1];
      if NewsHit(a, q) then
        var it := Reported(SearchNewsDraft(a, bd), bd);
        Plus(g, Gathered([it], [it.reference.value], [it.reference.value]))
      else g
  }

  predicate EarningsHit(fields: Record, q: string) {
    Contains(Lower(Lookup(fields, "company_name", "")), q) || Contains(Lower(Lookup(fields, "ticker", "")), q)
  }

  /** The first reported earnings item whose company or ticker contains the query. */
  function FirstEarningsHit(items: seq<Item>, q: string): (r: Option<Item>)
    ensures r.Some? ==> r.value in items && EarningsHit(r.value.fields, q)
    ensures r.None? ==> forall k :: 0 <= k < |items| ==> !EarningsHit(items[k].fields, q)
  {
    if |items| == 0 then None
    else if EarningsHit(items[0].fields, q) then Some(items[0])
    else FirstEarningsHit(items[1..], q)
  }

  /**
   * What the earnings pass gathers for one record that matches: the earnings
   * tool's run over all records, the first item of that run that matches the
   * query, and every reference of that run.
   */
  function EarningsMatch(x: Record, q: string, all: seq<Record>, env: Environment, bd: string): (g: Gathered)
    ensures g.returned == [] || g.returned == g.created
  {
    if EarningsHit(x, q) then
      var inner := Emit(all, Drafted(EarningsEntries(None, false, env, bd), bd));
      match FirstEarningsHit(inner, q)
      case Some(it) => Gathered([it.(fields := it.fields["type" := "earnings"])], RefsOf(inner), RefsOf(inner))
      case None => Gathered([], [], RefsOf(inner))
    else Gathered([], [], [])
  }

  /** What each record gathers in the earnings pass, in order. */
  function EarningsMatches(xs: seq<Record>, q: string, all: seq<Record>, env: Environment, bd: string): (ms: seq<Gathered>)
    ensures |ms| == |xs| && forall j :: 0 <= j < |xs| ==> ms[j] == EarningsMatch(xs[j], q, all, env, bd)
  {
    seq(|xs|, j requires 0 <= j < |xs| => EarningsMatch(xs[j], q, all, env, bd))
  }

  /** The earnings pass of the search, record by record. */
  function SearchEarnings(xs: seq<Record>, q: string, all: seq<Record>, env: Environment, bd: string): Gathered {
    Concat(EarningsMatches(xs, q, all, env, bd))
  }

  function SearchCalendarDraft(ev: Record): Draft {
    var name := Lookup(ev, "name", "");
    var date := Lookup(ev, "date", "");
    Draft(map["type" := "calendar", "name" := name, "date" := date],
          "calendar_events", "calendar_US.csv", name + ", " + date, None, Some(date))
  }

  /** The calendar pass: one reference per event whose name contains the query. */
  function SearchCalendar(xs: seq<Record>, q: string, bd: string): (g: Gathered)
    ensures g.returned == g.created && |g.items| == |g.created|
  {
    if |xs| == 0 then Gathered([], [], [])
    else
      var g := SearchCalendar(xs[..|xs| - 1], q, bd);
      var ev := xs[|xs| - 1];
      if Contains(Lower(Lookup(ev, "name", "")), q) then
        var it := Reported(SearchCalendarDraft(ev), bd);
        Plus(g, Gathered([it], [it.reference.value], [it.reference.value]))
      else g
  }

  /** The four passes of `_search_data`, in order. */
  function SearchAll(src: Sources, q: string, env: Environment, bd: string): (g: Gathered)
  {
    Plus(Plus(Plus(SearchMacro(src.macro, q, src.macro, bd), SearchNews(src.news, q, bd)),
              SearchEarnings(src.earnings, q, src.earnings, env, bd)),
         SearchCalendar(src.calendar, q, bd))
  }

  // ---------------------------------------------------------------------------
  // execute_tool

  /** What one tool call returns, and the references it appends to the log. */
  datatype Outcome = Outcome(result: ToolResult, created: seq<Reference>)

  /** A handler that reported `items` and returns their references. */
  function ListedOutcome(items: seq<Item>): Outcome {
    Outcome(Found(Listed(items), RefsOf(items)), RefsOf(items))
  }

  const ToolNames: set<string> := {"get_macro_indicators", "get_calendar_events", "get_news_articles",
    "get_earnings_results", "get_fomc_events", "get_market_summary", "search_data"}

  /** The start of the calendar window: the briefing date at midnight, or now when it does not parse. */
  function CalendarBase(bd: string, env: Environment): int {
    match env.parseDate(bd)
    case Some(d) => d * 86400
    case None => env.nowSeconds
  }

  function MacroOutcome(src: Sources, bd: string, args: Args): Outcome {
    match NamesArg(ArgOr(args, "indicator_names", AStrs([])))
    case None =>
      if |src.macro| > 0 then Outcome(Failed(Raised("TypeError")), []) else ListedOutcome([])
    case Some(names) => ListedOutcome(Emit(src.macro, Drafted(MacroEntries(names), bd)))
  }

  /** The calendar events the handler reports, before they are sorted. */
  function CalendarItems(src: Sources, bd: string, env: Environment, args: Args): seq<Item> {
    var importance := FilterArg(ArgOr(args, "importance", AStr("all")));
    var days := DaysArg(ArgOr(args, "days_ahead", AInt(14)));
    Emit(src.calendar, Drafted(CalendarEntries(importance, CalendarBase(bd, env), days, env), bd))
  }

  function CalendarOutcome(src: Sources, bd: string, env: Environment, args: Args): Outcome {
    var items := CalendarItems(src, bd, env, args);
    Outcome(Found(Listed(KS.SortAsc(items, ItemDate, VT.LexLess)), RefsOf(items)), RefsOf(items))
  }

  function NewsOutcome(src: Sources, bd: string, args: Args): Outcome {
    match LimitArg(ArgOr(args, "limit", AInt(10)))
    case None => Outcome(Failed(Raised("TypeError")), [])
    case Some(limit) =>
      ListedOutcome(NewsItems(src.news, FilterArg(ArgOr(args, "category", AStr("all"))), limit, bd))
  }

  function EarningsOutcome(src: Sources, bd: string, env: Environment, args: Args): Outcome {
    var beatOnly := ArgTruthy(ArgOr(args, "beat_only", ABool(false)));
    match SectorArg(ArgOr(args, "sector", ANull))
    case None =>
      if |src.earnings| > 0 then Outcome(Failed(Raised("AttributeError")), []) else ListedOutcome([])
    case Some(sector) => ListedOutcome(Emit(src.earnings, Drafted(EarningsEntries(sector, beatOnly, env, bd), bd)))
  }

  function FomcItems(src: Sources, bd: string, args: Args): seq<Item> {
    Emit(src.fomc, Drafted(FomcEntries(ArgTruthy(ArgOr(args, "include_snippets", ABool(true)))), bd))
  }

  function FomcOutcome(src: Sources, bd: string, args: Args): Outcome {
    var items := FomcItems(src, bd, args);
    Outcome(Found(Listed(KS.SortDesc(items, ItemDate, VT.LexLess)), RefsOf(items)), RefsOf(items))
  }

  function SummaryOutcome(src: Sources, bd: string, env: Environment, args: Args): Outcome {
    match src.marketSummary
    case None => Outcome(Found(NoData, []), [])
    case Some(ms) =>
      var refs := match SummaryRef(ms, env, bd) case Some(r) => [r] case None => [];
      Outcome(Found(Summary(SummaryData(ms, ArgTruthy(ArgOr(args, "include_sectors", ABool(true))), bd)), refs), refs)
  }

  function SearchOutcome(src: Sources, bd: string, env: Environment, args: Args): Outcome {
    match QueryArg(ArgOr(args, "query", AStr("")))
    case None => Outcome(Failed(Raised("AttributeError")), [])
    case Some(q) =>
      if q == "" then Outcome(Found(Listed([]), []), [])
      else
        var g := SearchAll(src, q, env, bd);
        Outcome(Found(Listed(g.items), g.returned), g.created)
  }

  /** `DataToolExecutor.execute_tool` over the executor's sources, briefing date and runtime. */
  function Respond(src: Sources, bd: string, env: Environment, name: string, args: Args): (o: Outcome)
    ensures name !in ToolNames ==> o == Outcome(Failed(UnknownTool(name)), [])
    ensures o.result.Failed? ==> o.created == []
  {
    match name
    case "get_macro_indicators" => MacroOutcome(src, bd, args)
    case "get_calendar_events" => CalendarOutcome(src, bd, env, args)
    case "get_news_articles" => NewsOutcome(src, bd, args)
    case "get_earnings_results" => EarningsOutcome(src, bd, env, args)
    case "get_fomc_events" => FomcOutcome(src, bd, args)
    case "get_market_summary" => SummaryOutcome(src, bd, env, args)
    case "search_data" => SearchOutcome(src, bd, env, args)
    case _ => Outcome(Failed(UnknownTool(name)), [])
  }

  /** The macro tool called by the search with one name. */
  lemma MacroForName(src: Sources, bd: string, name: string)
    ensures MacroOutcome(src, bd, map["indicator_names" := AStrs([name])])
         == ListedOutcome(Emit(src.macro, Drafted(MacroEntries([name]), bd)))
  {
    assert ArgOr(map["indicator_names" := AStrs([name])], "indicator_names", AStrs([])) == AStrs([name]);
  }

  /** The earnings tool called by the search with no sector. */
  lemma EarningsForAll(src: Sources, bd: string, env: Environment)
    ensures EarningsOutcome(src, bd, env, map["sector" := ANull])
         == ListedOutcome(Emit(src.earnings, Drafted(EarningsEntries(None, false, env, bd), bd)))
  {
    var args: Args := map["sector" := ANull];
    assert ArgOr(args, "sector", ANull) == ANull;
    assert "beat_only" !in args;
  }

  /** The search outcome for a non-empty query, pass by pass. */
  lemma SearchAllParts(src: Sources, q: string, env: Environment, bd: string)
    ensures var m, n, e, c := SearchMacro(src.macro, q, src.macro, bd), SearchNews(src.news, q, bd),
                              SearchEarnings(src.earnings, q, src.earnings, env, bd), SearchCalendar(src.calendar, q, bd);
      SearchAll(src, q, env, bd).items == m.items + n.items + e.items + c.items
      && SearchAll(src, q, env, bd).returned == m.returned + n.returned + e.returned + c.returned
      && SearchAll(src, q, env, bd).created == m.created + n.created + e.created + c.created
  {
  }

  // ---------------------------------------------------------------------------
  // format_references_for_output

  const ReferencesHeader := "## 참고 자료 (References)"

  /** The heading of a source type's group; an unknown type is its own label. */
  function TypeLabel(sourceType: string): string {
    match sourceType
    case "macro_data" => "\U{1F4CA} 거시경제 지표"
    case "calendar_events" => "\U{1F4C5} 경제 일정"
    case "news_data" => "\U{1F4F0} 뉴스"
    case "earnings_data" => "\U{1F4B0} 실적 발표"
    case "fomc_events" => "\U{1F3DB}\U{FE0F} FOMC"
    case "market_summary" => "\U{1F4C8} 시장 요약"
    case _ => sourceType
  }

  /** The source types of `refs` in order of first appearance (the key order of `by_type`). */
  function TypeOrder(refs: seq<Reference>): seq<string> {
    if |refs| == 0 then []
    else
      var ts := TypeOrder(refs[..|refs| - 1]);
      var t := refs[|refs| - 1].sourceType;
      if t in ts then ts else ts + [t]
  }

  /** The references of one source type, in order (one list of `by_type`). */
  function OfType(refs: seq<Reference>, t: string): seq<Reference> {
    if |refs| == 0 then []
    else OfType(refs[..|refs| - 1], t) + (if refs[|refs| - 1].sourceType == t then [refs[|refs| - 1]] else [])
  }

  /** A type that never appears has no references. */
  lemma {:induction false} OfTypeAbsent(refs: seq<Reference>, t: string)
    requires t !in TypeOrder(refs)
    ensures OfType(refs, t) == []
  {
    if |refs| > 0 {
      OfTypeAbsent(refs[..|refs| - 1], t);
    }
  }

  function Quotes(rs: seq<Reference>): set<string> {
    set r | r in rs :: r.quote
  }

  lemma QuotesSnoc(rs: seq<Reference>, r: Reference)
    ensures Quotes(rs + [r]) == Quotes(rs) + {r.quote}
  {
    assert forall x :: x in rs + [r] <==> x in rs || x == r;
    assert forall q :: q in Quotes(rs + [r]) ==> q in Quotes(rs) + {r.quote};
  }

  /** The references of a group that survive `seen_quotes`: the first with each quote. */
  function FirstQuotes(rs: seq<Reference>): (kept: seq<Reference>)
    ensures Quotes(kept) == Quotes(rs)
    ensures forall r :: r in kept ==> r in rs
  {
    if |rs| == 0 then []
    else
      var init := rs[..|rs| - 1];
      var kept := FirstQuotes(init);
      var r := rs[|rs| - 1];
      assert rs == init + [r];
      QuotesSnoc(init, r);
      QuotesSnoc(kept, r);
      assert forall x :: x in rs <==> x in init || x == r;
      if r.quote in Quotes(kept) then kept else kept + [r]
  }

  /** One bullet: the quote, then the provider after an em dash and the date in parentheses, when set. */
  function RefLine(r: Reference): string {
    "- " + r.quote
    + (if Truthy(r.provider) then " \U{2014} " + r.provider.value else "")
    + (if Truthy(r.date) then " (" + r.date.value + ")" else "")
  }

  function RefLines(rs: seq<Reference>): (ls: seq<string>)
    ensures |ls| == |rs| && forall k :: 0 <= k < |rs| ==> ls[k] == RefLine(rs[k])
  {
    if |rs| == 0 then [] else RefLines(rs[..|rs| - 1]) + [RefLine(rs[|rs| - 1])]
  }

  /** One group: its heading, a bullet per distinct quote, and a blank line. */
  function GroupLines(refs: seq<Reference>, t: string): seq<string> {
    ["### " + TypeLabel(t)] + RefLines(FirstQuotes(OfType(refs, t))) + [""]
  }

  function GroupsLines(refs: seq<Reference>, ts: seq<string>): seq<string> {
    if |ts| == 0 then [] else GroupsLines(refs, ts[..|ts| - 1]) + GroupLines(refs, ts[|ts| - 1])
  }

  /** `format_references_for_output` as a value: empty without references. */
  function ReferencesText(refs: seq<Reference>): string {
    if |refs| == 0 then "" else Join("\n", [ReferencesHeader, ""] + GroupsLines(refs, TypeOrder(refs)))
  }

  // ---------------------------------------------------------------------------
  // format_tool_result_for_llm

  /** The tag in front of a cited item: type, quoted text, and the provider when set. */
  function SourceTag(r: Reference): string {
    "[SOURCE: " + r.sourceType + " | \"" + r.quote + "\""
    + (if Truthy(r.provider) then " - " + r.provider.value else "") + "]"
  }

  /** One item for the model: its tag on its own line, then its fields as JSON (`dumps`). */
  function ItemText(it: Item, dumps: Record -> string): string {
    match it.reference
    case Some(r) => SourceTag(r) + "\n" + dumps(it.fields)
    case None => dumps(it.fields)
  }

  function ItemTexts(items: seq<Item>, dumps: Record -> string): (ts: seq<string>)
    ensures |ts| == |items| && forall k :: 0 <= k < |items| ==> ts[k] == ItemText(items[k], dumps)
  {
    if |items| == 0 then [] else ItemTexts(items[..|items| - 1], dumps) + [ItemText(items[|items| - 1], dumps)]
  }

  const NoDataText := "No data found."

  /** What the model reads for one tool result. */
  function ToolResultText(result: ToolResult, dumps: Record -> string): string {
    match result
    case Failed(e) => "Error: " + ErrorText(e)
    case Found(NoData, _) => NoDataText
    case Found(Summary(fields), _) => dumps(fields)
    case Found(Listed(items), _) => if |items| == 0 then NoDataText else Join("\n\n", ItemTexts(items, dumps))
  }

  /** `format_tool_result_for_llm`: one block per item, each cited item led by its source tag. */
  method FormatToolResultForLlm(result: ToolResult, dumps: Record -> string) returns (text: string)
    ensures text == ToolResultText(result, dumps)
  {
    if result.Failed? {
      return "Error: " + ErrorText(result.error);
    }
    match result.data
    case NoData =>
      text := NoDataText;
    case Summary(fields) =>
      text := dumps(fields);
    case Listed(items) =>
      if |items| == 0 {
        return NoDataText;
      }
      var outputLines: seq<string> := [];
      for i := 0 to |items|
        invariant outputLines == ItemTexts(items[..i], dumps)
      {
        assert items[..i + 1][..i] == items[..i];
        var it := items[i];
        if it.reference.Some? {
          outputLines := outputLines + [SourceTag(it.reference.value) + "\n" + dumps(it.fields)];
        } else {
          outputLines := outputLines + [dumps(it.fields)];
        }
      }
      assert items[..|items|] == items;
      text := Join("\n\n", outputLines);
  }



  lemma GroupsLinesStep(refs: seq<Reference>, ts: seq<string>, k: int)
    requires 0 <= k < |ts|
    ensures GroupsLines(refs, ts[..k + 1]) == GroupsLines(refs, ts[..k]) + GroupLines(refs, ts[k])
  {
    assert ts[..k + 1][..k] == ts[..k];
  }

  /** `types` and `byType` are the grouping of `refs`. */
  ghost predicate Grouped(refs: seq<Reference>, types: seq<string>, byType: map<string, seq<Reference>>) {
    types == TypeOrder(refs)
    && (forall t :: t in byType <==> t in types)
    && (forall t :: t in byType ==> byType[t] == OfType(refs, t))
  }

  /** The order of types after one more reference. */
  lemma TypeOrderSnoc(pre: seq<Reference>, r: Reference)
    ensures TypeOrder(pre + [r])
         == if r.sourceType in TypeOrder(pre) then TypeOrder(pre) else TypeOrder(pre) + [r.sourceType]
  {
    assert (pre + [r])[..|pre|] == pre;
  }

  /** A group after one more reference. */
  lemma OfTypeSnoc(pre: seq<Reference>, r: Reference, u: string)
    ensures OfType(pre + [r], u) == OfType(pre, u) + (if r.sourceType == u then [r] else [])
  {
    assert (pre + [r])[..|pre|] == pre;
  }

  /** One more reference joins its type's group, opening the group when the type is new. */
  lemma GroupedSnoc(pre: seq<Reference>, r: Reference, types: seq<string>, byType: map<string, seq<Reference>>)
    requires Grouped(pre, types, byType)
    ensures var t := r.sourceType;
      Grouped(pre + [r], if t in byType then types else types + [t],
              byType[t := (if t in byType then byType[t] else []) + [r]])
  {
    var t := r.sourceType;
    var types' := if t in byType then types else types + [t];
    var byType' := byType[t := (if t in byType then byType[t] else []) + [r]];
    TypeOrderSnoc(pre, r);
    assert t in byType <==> t in types;
    forall u ensures u in byType' <==> u in types' {
      assert u in byType <==> u in types;
    }
    forall u | u in byType' ensures byType'[u] == OfType(pre + [r], u) {
      OfTypeSnoc(pre, r, u);
      if u != t {
        assert byType'[u] == byType[u];
      } else if t !in byType {
        OfTypeAbsent(pre, t);
      }
    }
  }

  /** The same step at position `i` of the reference list. */
  lemma GroupedStep(refs: seq<Reference>, i: int, types: seq<string>, byType: map<string, seq<Reference>>)
    requires 0 <= i < |refs| && Grouped(refs[..i], types, byType)
    ensures var t := refs[i].sourceType;
      Grouped(refs[..i + 1], if t in byType then types else types + [t],
              byType[t := (if t in byType then byType[t] else []) + [refs[i]]])
  {
    assert refs[..i + 1] == refs[..i] + [refs[i]];
    GroupedSnoc(refs[..i], refs[i], types, byType);
  }

  /** The `by_type` grouping: the types in order of first appearance, and each type's references. */
  method GroupByType(refs: seq<Reference>) returns (types: seq<string>, byType: map<string, seq<Reference>>)
    ensures types == TypeOrder(refs)
    ensures forall t :: t in byType <==> t in types
    ensures forall t :: t in byType ==> byType[t] == OfType(refs, t)
  {
    types, byType := [], map[];
    for i := 0 to |refs|
      invariant Grouped(refs[..i], types, byType)
    {
      GroupedStep(refs, i, types, byType);
      var t := refs[i].sourceType;
      var group := if t in byType then byType[t] else [];
      if t !in byType {
        types := types + [t];
      }
      byType := byType[t := group + [refs[i]]];
    }
    assert refs[..|refs|] == refs;
  }

  /** One more reference of a group: kept exactly when its quote is new. */
  lemma FirstQuotesStep(rs: seq<Reference>, j: int)
    requires 0 <= j < |rs|
    ensures FirstQuotes(rs[..j + 1])
         == if rs[j].quote in Quotes(FirstQuotes(rs[..j])) then FirstQuotes(rs[..j]) else FirstQuotes(rs[..j]) + [rs[j]]
  {
    assert rs[..j + 1][..j] == rs[..j];
  }

  lemma RefLinesSnoc(kept: seq<Reference>, r: Reference)
    ensures RefLines(kept + [r]) == RefLines(kept) + [RefLine(r)]
  {
    assert (kept + [r])[..|kept|] == kept;
  }

  /** One group of the references section, skipping quotes already listed in it. */
  method GroupText(t: string, rs: seq<Reference>) returns (lines: seq<string>)
    ensures lines == ["### " + TypeLabel(t)] + RefLines(FirstQuotes(rs)) + [""]
  {
    var seen: set<string> := {};
    var bullets: seq<string> := [];
    ghost var kept: seq<Reference> := [];
    for j := 0 to |rs|
      invariant kept == FirstQuotes(rs[..j])
      invariant seen == Quotes(kept) && bullets == RefLines(kept)
    {
      FirstQuotesStep(rs, j);
      var r := rs[j];
      if r.quote !in seen {
        QuotesSnoc(kept, r);
        RefLinesSnoc(kept, r);
        seen := seen + {r.quote};
        bullets := bullets + [RefLine(r)];
        kept := kept + [r];
      }
    }
    assert rs[..|rs|] == rs;
    lines := ["### " + TypeLabel(t)] + bullets + [""];
  }

  // ---------------------------------------------------------------------------
  // What the handlers promise

  /** Every reported item carries the reference created for it. */
  lemma {:induction false} EmitReferenced<X>(xs: seq<X>, entry: X -> Option<Draft>, bd: string)
    ensures forall k :: 0 <= k < |Emit(xs, Drafted(entry, bd))| ==> Emit(xs, Drafted(entry, bd))[k].reference.Some?
  {
    if |xs| > 0 {
      EmitReferenced(xs[..|xs| - 1], entry, bd);
    }
  }

  /** The record an item was reported from, and the draft it was reported as. */
  lemma EmitSource<X>(xs: seq<X>, entry: X -> Option<Draft>, bd: string, k: int) returns (i: int)
    requires 0 <= k < |Emit(xs, Drafted(entry, bd))|
    ensures 0 <= i < |xs| && entry(xs[i]).Some?
    ensures Emit(xs, Drafted(entry, bd))[k] == Reported(entry(xs[i]).value, bd)
  {
    EmitFrom(xs, Drafted(entry, bd));
    i :| 0 <= i < |xs| && Drafted(entry, bd)(xs[i]) == Some(Emit(xs, Drafted(entry, bd))[k]);
  }

  /** A rule that keeps every record reports every record. */
  lemma {:induction false} EmitKeepsAll<X>(xs: seq<X>, entry: X -> Option<Item>)
    requires forall i :: 0 <= i < |xs| ==> entry(xs[i]).Some?
    ensures |Emit(xs, entry)| == |xs|
  {
    if |xs| > 0 {
      EmitKeepsAll(xs[..|xs| - 1], entry);
    }
  }

  /**
   * `get_macro_indicators`: every indicator reported has a requested name,
   * and an empty request reports every indicator.
   */
  lemma MacroReportsRequested(src: Sources, bd: string, names: seq<string>)
    ensures var items := Emit(src.macro, Drafted(MacroEntries(names), bd));
      forall k :: 0 <= k < |items| ==> "name" in items[k].fields && NameRequested(items[k].fields["name"], names)
    ensures |names| == 0 ==> |Emit(src.macro, Drafted(MacroEntries(names), bd))| == |src.macro|
  {
    var items := Emit(src.macro, Drafted(MacroEntries(names), bd));
    forall k | 0 <= k < |items|
      ensures "name" in items[k].fields && NameRequested(items[k].fields["name"], names)
    {
      var i := EmitSource(src.macro, MacroEntries(names), bd, k);
      assert items[k].fields["name"] == Lookup(src.macro[i], "name", "");
    }
    if |names| == 0 {
      EmitKeepsAll(src.macro, Drafted(MacroEntries(names), bd));
    }
  }

  /**
   * `get_calendar_events`: every event reported has the requested importance
   * and lies in the date window.
   */
  lemma CalendarItemsFiltered(src: Sources, bd: string, env: Environment, args: Args)
    ensures var importance, days := FilterArg(ArgOr(args, "importance", AStr("all"))), DaysArg(ArgOr(args, "days_ahead", AInt(14)));
      var items := CalendarItems(src, bd, env, args);
      forall k :: 0 <= k < |items| ==>
        "importance" in items[k].fields && "date" in items[k].fields
        && Passes(importance, items[k].fields["importance"])
        && InWindow(items[k].fields["date"], CalendarBase(bd, env), days, env)
  {
    var importance, days := FilterArg(ArgOr(args, "importance", AStr("all"))), DaysArg(ArgOr(args, "days_ahead", AInt(14)));
    var entry := CalendarEntries(importance, CalendarBase(bd, env), days, env);
    var items := CalendarItems(src, bd, env, args);
    forall k | 0 <= k < |items|
      ensures "importance" in items[k].fields && "date" in items[k].fields
        && Passes(importance, items[k].fields["importance"])
        && InWindow(items[k].fields["date"], CalendarBase(bd, env), days, env)
    {
      var i := EmitSource(src.calendar, entry, bd, k);
      assert items[k].fields["importance"] == Lookup(src.calendar[i], "importance", "medium");
      assert items[k].fields["date"] == Lookup(src.calendar[i], "date", "");
    }
  }

  /**
   * `get_calendar_events` returns the reported events ordered by date, earliest
   * first (a reordering of them), with one reference per event, all logged.
   */
  lemma CalendarSorted(src: Sources, bd: string, env: Environment, args: Args)
    ensures var o, items := CalendarOutcome(src, bd, env, args), CalendarItems(src, bd, env, args);
      o.result.Found? && o.result.data.Listed?
      && KS.SortedAsc(o.result.data.items, ItemDate, VT.LexLess)
      && multiset(o.result.data.items) == multiset(items)
      && |o.result.references| == |items| && o.result.references == o.created
  {
    var items := CalendarItems(src, bd, env, args);
    VT.LexLessOrder();
    KS.SortAscCorrect(items, ItemDate, VT.LexLess);
    EmitReferenced(src.calendar, CalendarEntries(FilterArg(ArgOr(args, "importance", AStr("all"))),
      CalendarBase(bd, env), DaysArg(ArgOr(args, "days_ahead", AInt(14))), env), bd);
    RefsOfReferenced(items);
  }

  /** A reported article shows a non-empty headline and a category the filter passes. */
  lemma NewsFilterFields(a: Article, category: Option<string>, bd: string)
    requires NewsEntry(a, category, bd).Some?
    ensures var f := NewsEntry(a, category, bd).value.fields;
      "headline" in f && "category" in f && f["headline"] != "" && Passes(category, f["category"])
  {
  }

  /**
   * `get_news_articles`: at most `limit` articles (one when `limit` is not
   * positive, since the loop checks after appending), none for a zero limit,
   * each with a headline and the requested category, and only the first
   * `2 * limit` articles are looked at.
   */
  lemma NewsBounded(news: seq<Article>, category: Option<string>, limit: int, bd: string)
    ensures var items := NewsItems(news, category, limit, bd);
      |items| <= NewsCap(limit) && (limit == 0 ==> items == [])
      && forall k :: 0 <= k < |items| ==>
           "headline" in items[k].fields && "category" in items[k].fields
           && items[k].fields["headline"] != "" && Passes(category, items[k].fields["category"])
    ensures 0 <= 2 * limit <= |news| ==> NewsItems(news, category, limit, bd) == NewsItems(news[..2 * limit], category, limit, bd)
  {
    var considered := PySliceTo(news, 2 * limit);
    var all := Emit(considered, Drafted(NewsEntries(category, bd), bd));
    var items := NewsItems(news, category, limit, bd);
    forall k | 0 <= k < |items|
      ensures "headline" in items[k].fields && "category" in items[k].fields
        && items[k].fields["headline"] != "" && Passes(category, items[k].fields["category"])
    {
      assert items[k] == all[k];
      var i := EmitSource(considered, NewsEntries(category, bd), bd, k);
      NewsFilterFields(considered[i], category, bd);
    }
    if 0 <= 2 * limit <= |news| {
      assert PySliceTo(news[..2 * limit], 2 * limit) == news[..2 * limit] == considered;
    }
  }

  /** A reported earnings result shows the record's verdict and sector, empty when missing. */
  lemma EarningsFilterFields(e: Record, sector: Option<string>, beatOnly: bool, env: Environment, bd: string)
    requires EarningsEntry(e, sector, beatOnly, env, bd).Some?
    ensures var f := EarningsEntry(e, sector, beatOnly, env, bd).value.fields;
      "beat_or_miss" in f && "sector" in f
      && f["beat_or_miss"] == Lookup(e, "beat_or_miss", "") && f["sector"] == Lookup(e, "sector", "")
  {
    assert MissingAs("beat_or_miss") == "" && MissingAs("sector") == "";
  }

  /**
   * `get_earnings_results`: with `beat_only` every result reported beat its
   * estimates, with a sector every result is in it (ignoring case), and
   * without either every result is reported.
   */
  lemma EarningsFiltered(src: Sources, bd: string, env: Environment, sector: Option<string>, beatOnly: bool)
    ensures var items := Emit(src.earnings, Drafted(EarningsEntries(sector, beatOnly, env, bd), bd));
      forall k :: 0 <= k < |items| ==>
        "beat_or_miss" in items[k].fields && "sector" in items[k].fields
        && (beatOnly ==> items[k].fields["beat_or_miss"] == "beat")
        && (sector.Some? ==> Lower(items[k].fields["sector"]) == Lower(sector.value))
    ensures sector.None? && !beatOnly ==>
      |Emit(src.earnings, Drafted(EarningsEntries(sector, beatOnly, env, bd), bd))| == |src.earnings|
  {
    var entry := EarningsEntries(sector, beatOnly, env, bd);
    var items := Emit(src.earnings, Drafted(entry, bd));
    forall k | 0 <= k < |items|
      ensures "beat_or_miss" in items[k].fields && "sector" in items[k].fields
        && (beatOnly ==> items[k].fields["beat_or_miss"] == "beat")
        && (sector.Some? ==> Lower(items[k].fields["sector"]) == Lower(sector.value))
    {
      var i := EmitSource(src.earnings, entry, bd, k);
      EarningsFilterFields(src.earnings[i], sector, beatOnly, env, bd);
    }
    if sector.None? && !beatOnly {
      EmitKeepsAll(src.earnings, Drafted(entry, bd));
    }
  }

  /** `get_fomc_events`: every meeting, latest first, one logged reference each. */
  lemma FomcSorted(src: Sources, bd: string, args: Args)
    ensures var o, items := FomcOutcome(src, bd, args), FomcItems(src, bd, args);
      o.result.Found? && o.result.data.Listed? && |items| == |src.fomc|
      && KS.SortedDesc(o.result.data.items, ItemDate, VT.LexLess)
      && multiset(o.result.data.items) == multiset(items)
      && |o.result.references| == |src.fomc| && o.result.references == o.created
  {
    var entry := FomcEntries(ArgTruthy(ArgOr(args, "include_snippets", ABool(true))));
    var items := FomcItems(src, bd, args);
    EmitKeepsAll(src.fomc, Drafted(entry, bd));
    VT.LexLessOrder();
    KS.SortDescCorrect(items, ItemDate, VT.LexLess);
    EmitReferenced(src.fomc, entry, bd);
    RefsOfReferenced(items);
  }

  lemma PlusRecorded(a: Gathered, b: Gathered)
    requires Recorded(a) && Recorded(b)
    ensures Recorded(Plus(a, b))
  {
  }

  lemma {:induction false} ConcatRecorded(gs: seq<Gathered>)
    requires forall k :: 0 <= k < |gs| ==> Recorded(gs[k])
    ensures Recorded(Concat(gs))
  {
    if |gs| > 0 {
      ConcatRecorded(gs[..|gs| - 1]);
      PlusRecorded(Concat(gs[..|gs| - 1]), gs[|gs| - 1]);
    }
  }

  /** Every reference a search returns was created (and so logged) by it. */
  lemma SearchRecorded(src: Sources, q: string, env: Environment, bd: string)
    ensures Recorded(SearchAll(src, q, env, bd))
  {
    var ms := MacroMatches(src.macro, q, src.macro, bd);
    forall k | 0 <= k < |ms| ensures Recorded(ms[k]) {
      MacroMatchesAt(src.macro, q, src.macro, bd, k);
    }
    ConcatRecorded(ms);
    ConcatRecorded(EarningsMatches(src.earnings, q, src.earnings, env, bd));
    var m, n, e, c := SearchMacro(src.macro, q, src.macro, bd), SearchNews(src.news, q, bd),
                      SearchEarnings(src.earnings, q, src.earnings, env, bd), SearchCalendar(src.calendar, q, bd);
    PlusRecorded(m, n);
    PlusRecorded(Plus(m, n), e);
    PlusRecorded(Plus(Plus(m, n), e), c);
  }

  /**
   * The search's earnings pass, for one record that matches the query, runs
   * the earnings tool over every record: it creates a reference for each of
   * them yet reports at most one item, tagged as earnings.
   */
  lemma SearchEarningsRunsAll(x: Record, q: string, all: seq<Record>, env: Environment, bd: string)
    requires EarningsHit(x, q)
    ensures var g := EarningsMatch(x, q, all, env, bd);
      |g.created| == |all| && |g.items| <= 1
      && (|g.items| == 1 ==> "type" in g.items[0].fields && g.items[0].fields["type"] == "earnings")
  {
    var entry := EarningsEntries(None, false, env, bd);
    var inner := Emit(all, Drafted(entry, bd));
    EmitKeepsAll(all, Drafted(entry, bd));
    EmitReferenced(all, entry, bd);
    RefsOfReferenced(inner);
  }

  /**
   * Every reference a tool call returns is one it appended to the log; a call
   * of any tool but the search returns exactly what it appended.
   */
  lemma ReturnedAreLogged(src: Sources, bd: string, env: Environment, name: string, args: Args)
    ensures var o := Respond(src, bd, env, name, args);
      o.result.Found? ==> forall r :: r in o.result.references ==> r in o.created
    ensures var o := Respond(src, bd, env, name, args);
      o.result.Found? && name != "search_data" ==> o.result.references == o.created
  {
    if name == "search_data" {
      match QueryArg(ArgOr(args, "query", AStr("")))
      case None =>
      case Some(q) =>
        if q != "" {
          SearchRecorded(src, q, env, bd);
        }
    }
  }

  /** An empty query finds nothing and logs nothing. */
  lemma EmptyQueryFindsNothing(src: Sources, bd: string, env: Environment, args: Args)
    requires ArgOr(args, "query", AStr("")) == AStr("")
    ensures SearchOutcome(src, bd, env, args) == Outcome(Found(Listed([]), []), [])
  {
    assert Lower("") == "";
  }

  /** An unknown tool name fails with that name and logs nothing. */
  lemma UnknownToolLogsNothing(src: Sources, bd: string, env: Environment, name: string, args: Args)
    requires name !in ToolNames
    ensures Respond(src, bd, env, name, args).result == Failed(UnknownTool(name))
    ensures Respond(src, bd, env, name, args).created == []
  {
  }

  // ---------------------------------------------------------------------------
  // What the references section promises

  /** The group order holds each source type of the log once, and no other. */
  lemma {:induction false} TypeOrderExact(refs: seq<Reference>)
    ensures forall t :: t in TypeOrder(refs) <==> exists i :: 0 <= i < |refs| && refs[i].sourceType == t
    ensures forall i, j :: 0 <= i < j < |TypeOrder(refs)| ==> TypeOrder(refs)[i] != TypeOrder(refs)[j]
  {
    if |refs| > 0 {
      var init := refs[..|refs| - 1];
      TypeOrderExact(init);
      assert forall i :: 0 <= i < |init| ==> init[i] == refs[i];
      forall t | exists i :: 0 <= i < |refs| && refs[i].sourceType == t
        ensures t in TypeOrder(refs)
      {
        var i :| 0 <= i < |refs| && refs[i].sourceType == t;
        if i < |init| {
          assert init[i].sourceType == t;
        }
      }
    }
  }

  /** A group holds exactly the logged references of its type, in log order. */
  lemma {:induction false} OfTypeMembers(refs: seq<Reference>, t: string)
    ensures forall r :: r in OfType(refs, t) <==> r in refs && r.sourceType == t
  {
    if |refs| > 0 {
      OfTypeMembers(refs[..|refs| - 1], t);
      assert refs == refs[..|refs| - 1] + [refs[|refs| - 1]];
    }
  }

  /** No two references share a quote. */
  predicate QuotesDistinct(rs: seq<Reference>) {
    forall i, j :: 0 <= i < j < |rs| ==> rs[i].quote != rs[j].quote
  }

  /** Within a group no quote is listed twice. */
  lemma {:induction false} FirstQuotesDistinct(rs: seq<Reference>)
    ensures QuotesDistinct(FirstQuotes(rs))
  {
    if |rs| > 0 {
      var init := rs[..|rs| - 1];
      FirstQuotesDistinct(init);
      var kept := FirstQuotes(init);
      var r := rs[|rs| - 1];
      if r.quote !in Quotes(kept) {
        var all := kept + [r];
        assert FirstQuotes(rs) == all;
        forall i, j | 0 <= i < j < |all| ensures all[i].quote != all[j].quote {
          if j == |kept| {
            assert all[i] in kept && all[i].quote in Quotes(kept);
          } else {
            assert all[i] == kept[i] && all[j] == kept[j];
          }
        }
      } else {
        assert FirstQuotes(rs) == kept;
      }
    }
  }

  /** Every logged reference has its quote listed under the heading of its source type. */
  lemma EveryReferenceListed(refs: seq<Reference>)
    ensures forall r :: r in refs ==>
      r.sourceType in TypeOrder(refs) && r.quote in Quotes(FirstQuotes(OfType(refs, r.sourceType)))
  {
    TypeOrderExact(refs);
    forall r | r in refs
      ensures r.sourceType in TypeOrder(refs) && r.quote in Quotes(FirstQuotes(OfType(refs, r.sourceType)))
    {
      var i :| 0 <= i < |refs| && refs[i] == r;
      OfTypeMembers(refs, r.sourceType);
      assert r in OfType(refs, r.sourceType);
    }
  }

  /** The section is empty exactly when nothing was logged; otherwise it opens with its header. */
  lemma ReferencesTextEmpty(refs: seq<Reference>)
    ensures ReferencesText(refs) == "" <==> |refs| == 0
    ensures |refs| > 0 ==> StartsWith(ReferencesText(refs), ReferencesHeader)
  {
    if |refs| > 0 {
      JoinStartsWithFirst("\n", [ReferencesHeader, ""] + GroupsLines(refs, TypeOrder(refs)));
    }
  }

  // ---------------------------------------------------------------------------
  // What the model reads

  /** The model's source tag carries the same text as the citation tag it is asked to write. */
  lemma SourceTagMirrorsCitation(r: Reference)
    ensures SourceTag(r) == "[SOURCE: " + CitationTag(r)[|"[REF: "|..]
  {
    assert CitationTag(r) == "[REF: " + (CitationTag(r)[6..]);
  }

  /** An error reads as "Error: ..."; a list opens with its first item, tag first when it is cited. */
  lemma ToolResultTextShape(result: ToolResult, dumps: Record -> string)
    ensures result.Failed? ==> StartsWith(ToolResultText(result, dumps), "Error: ")
    ensures result.Found? && result.data.Listed? && |result.data.items| > 0
              && result.data.items[0].reference.Some? ==>
      StartsWith(ToolResultText(result, dumps), SourceTag(result.data.items[0].reference.value))
  {
    if result.Found? && result.data.Listed? && |result.data.items| > 0 {
      var ts := ItemTexts(result.data.items, dumps);
      JoinStartsWithFirst("\n\n", ts);
    }
  }

  // ---------------------------------------------------------------------------
  // The executor

  class DataToolExecutor {
    const sources: Sources
    const briefingDate: string
    const env: Environment
    /** Every reference created so far, in creation order. */
    var referencesUsed: seq<Reference>

    /** `DataToolExecutor(sources, briefing_date)`: the date defaults to today. */
    constructor (sources: Sources, briefingDate: Option<string>, env: Environment)
      ensures this.sources == sources && this.env == env && referencesUsed == []
      ensures this.briefingDate == if Truthy(briefingDate) then briefingDate.value else env.today
    {
      this.sources := sources;
      this.briefingDate := if Truthy(briefingDate) then briefingDate.value else env.today;
      this.env := env;
      referencesUsed := [];
    }

    /** `_create_reference`: builds the reference and appends it to the log. */
    method CreateReference(sourceType: string, sourceFile: string, quote: string,
                           provider: Option<string>, date: Option<string>) returns (ref: Reference)
      modifies this
      ensures ref == MakeRef(sourceType, sourceFile, quote, provider, date, briefingDate)
      ensures referencesUsed == old(referencesUsed) + [ref]
    {
      ref := MakeRef(sourceType, sourceFile, quote, provider, date, briefingDate);
      referencesUsed := referencesUsed + [ref];
    }

    /** Reports one draft: creates its reference and attaches it. */
    method Report(d: Draft) returns (it: Item, ref: Reference)
      modifies this
      ensures it == Reported(d, briefingDate) && it.reference == Some(ref)
      ensures referencesUsed == old(referencesUsed) + [ref]
    {
      ref := CreateReference(d.sourceType, d.sourceFile, d.quote, d.provider, d.date);
      it := Item(d.fields, Some(ref), d.lists);
    }

    /** The loop of every list handler: report each record `entry` keeps, in order. */
    method ReportEach<X>(xs: seq<X>, entry: X -> Option<Draft>) returns (items: seq<Item>, refs: seq<Reference>)
      modifies this
      ensures items == Emit(xs, Drafted(entry, briefingDate)) && refs == RefsOf(items)
      ensures referencesUsed == old(referencesUsed) + refs
    {
      items, refs := [], [];
      for i := 0 to |xs|
        invariant items == Emit(xs[..i], Drafted(entry, briefingDate)) && refs == RefsOf(items)
        invariant referencesUsed == old(referencesUsed) + refs
      {
        EmitDrafted(xs, i, entry, briefingDate);
        var d := entry(xs[i]);
        if d.Some? {
          var it, ref := Report(d.value);
          RefsOfAppend(items, [it]);
          SeqUtil.AppendAssoc(old(referencesUsed), refs, [ref]);
          items, refs := items + [it], refs + [ref];
        }
      }
      assert xs[..|xs|] == xs;
    }

    /** One pass of a report loop: the next record, reported when `entry` keeps it. */
    method ReportNext<X>(xs: seq<X>, i: nat, entry: X -> Option<Draft>, items: seq<Item>, refs: seq<Reference>,
                         ghost log0: seq<Reference>)
      returns (items': seq<Item>, refs': seq<Reference>)
      requires i < |xs| && items == Emit(xs[..i], Drafted(entry, briefingDate)) && refs == RefsOf(items)
      requires referencesUsed == log0 + refs
      modifies this
      ensures items' == Emit(xs[..i + 1], Drafted(entry, briefingDate)) && refs' == RefsOf(items')
      ensures referencesUsed == log0 + refs'
      ensures |items'| == |items| + (if entry(xs[i]).Some? then 1 else 0)
    {
      EmitDrafted(xs, i, entry, briefingDate);
      items', refs' := items, refs;
      var d := entry(xs[i]);
      if d.Some? {
        var it, ref := Report(d.value);
        RefsOfAppend(items, [it]);
        SeqUtil.AppendAssoc(log0, refs, [ref]);
        items', refs' := items + [it], refs + [ref];
      }
    }

    /** The news loop: like `ReportEach`, but it stops once `limit` items are reported. */
    method ReportUpTo(xs: seq<Article>, entry: Article -> Option<Draft>, limit: int) returns (items: seq<Item>, refs: seq<Reference>)
      modifies this
      ensures items == Take(Emit(xs, Drafted(entry, briefingDate)), NewsCap(limit)) && refs == RefsOf(items)
      ensures referencesUsed == old(referencesUsed) + refs
    {
      ghost var F := Drafted(entry, briefingDate);
      ghost var log0 := referencesUsed;
      items, refs := [], [];
      var i := 0;
      while i < |xs|
        invariant 0 <= i <= |xs|
        invariant items == Emit(xs[..i], F) && refs == RefsOf(items) && |items| < NewsCap(limit)
        invariant referencesUsed == log0 + refs
      {
        var before := |items|;
        items, refs := ReportNext(xs, i, entry, items, refs, log0);
        i := i + 1;
        if |items| > before && |items| >= limit {
          break;
        }
      }
      TakeReached(xs, i, F, NewsCap(limit));
    }

    method GetMacroIndicators(args: Args) returns (result: ToolResult)
      modifies this
      ensures result == MacroOutcome(sources, briefingDate, args).result
      ensures referencesUsed == old(referencesUsed) + MacroOutcome(sources, briefingDate, args).created
    {
      var names := NamesArg(ArgOr(args, "indicator_names", AStrs([])));
      if names.None? {
        if |sources.macro| > 0 {
          return Failed(Raised("TypeError"));
        }
        return Found(Listed([]), []);
      }
      var items, refs := ReportEach(sources.macro, MacroEntries(names.value));
      result := Found(Listed(items), refs);
    }

    method GetCalendarEvents(args: Args) returns (result: ToolResult)
      modifies this
      ensures result == CalendarOutcome(sources, briefingDate, env, args).result
      ensures referencesUsed == old(referencesUsed) + CalendarOutcome(sources, briefingDate, env, args).created
    {
      var importance := FilterArg(ArgOr(args, "importance", AStr("all")));
      var days := DaysArg(ArgOr(args, "days_ahead", AInt(14)));
      var base := CalendarBase(briefingDate, env);
      var items, refs := ReportEach(sources.calendar, CalendarEntries(importance, base, days, env));
      result := Found(Listed(KS.SortAsc(items, ItemDate, VT.LexLess)), refs);
    }

    method GetNewsArticles(args: Args) returns (result: ToolResult)
      modifies this
      ensures result == NewsOutcome(sources, briefingDate, args).result
      ensures referencesUsed == old(referencesUsed) + NewsOutcome(sources, briefingDate, args).created
    {
      var limit := LimitArg(ArgOr(args, "limit", AInt(10)));
      if limit.None? {
        return Failed(Raised("TypeError"));
      }
      var category := FilterArg(ArgOr(args, "category", AStr("all")));
      var window := PySliceTo(sources.news, 2 * limit.value);
      var items, refs := ReportUpTo(window, NewsEntries(category, briefingDate), limit.value);
      result := Found(Listed(items), refs);
    }

    method GetEarningsResults(args: Args) returns (result: ToolResult)
      modifies this
      ensures result == EarningsOutcome(sources, briefingDate, env, args).result
      ensures referencesUsed == old(referencesUsed) + EarningsOutcome(sources, briefingDate, env, args).created
    {
      var sector := SectorArg(ArgOr(args, "sector", ANull));
      var beatOnly := ArgTruthy(ArgOr(args, "beat_only", ABool(false)));
      if sector.None? {
        if |sources.earnings| > 0 {
          return Failed(Raised("AttributeError"));
        }
        return Found(Listed([]), []);
      }
      var items, refs := ReportEach(sources.earnings, EarningsEntries(sector.value, beatOnly, env, briefingDate));
      result := Found(Listed(items), refs);
    }

    method GetFomcEvents(args: Args) returns (result: ToolResult)
      modifies this
      ensures result == FomcOutcome(sources, briefingDate, args).result
      ensures referencesUsed == old(referencesUsed) + FomcOutcome(sources, briefingDate, args).created
    {
      var includeSnippets := ArgTruthy(ArgOr(args, "include_snippets", ABool(true)));
      var items, refs := ReportEach(sources.fomc, FomcEntries(includeSnippets));
      result := Found(Listed(KS.SortDesc(items, ItemDate, VT.LexLess)), refs);
    }

    method GetMarketSummary(args: Args) returns (result: ToolResult)
      modifies this
      ensures result == SummaryOutcome(sources, briefingDate, env, args).result
      ensures referencesUsed == old(referencesUsed) + SummaryOutcome(sources, briefingDate, env, args).created
    {
      if sources.marketSummary.None? {
        return Found(NoData, []);
      }
      var ms := sources.marketSummary.value;
      var quotes: seq<string> := [];
      for i := 0 to |ms.indices|
        invariant quotes == IndexQuotes(ms.indices[..i], env)
      {
        assert ms.indices[..i + 1][..i] == ms.indices[..i];
        var e := ms.indices[i];
        if e.data.Some? {
          var d := e.data.value;
          quotes := quotes + [e.name + ": " + env.fixed2(Lookup(d, "close", "0")) + " ("
                              + env.signed2(Lookup(d, "change_pct", "0")) + "%)"];
        }
      }
      assert ms.indices[..|ms.indices|] == ms.indices;
      var refs: seq<Reference> := [];
      if |quotes| > 0 {
        var ref := CreateReference("market_summary", "market_summary.json", Join("; ", Take(quotes, 3)), None,
                                   Some(Lookup(ms.fields, "date", briefingDate)));
        refs := [ref];
      }
      var includeSectors := ArgTruthy(ArgOr(args, "include_sectors", ABool(true)));
      result := Found(Summary(SummaryData(ms, includeSectors, briefingDate)), refs);
    }

    /** One indicator of the macro pass: on a match, the macro tool for its name. */
    method MacroPassOne(x: Record, q: string) returns (items: seq<Item>, refs: seq<Reference>)
      modifies this
      ensures Gathered(items, refs, refs) == MacroMatch(x, q, sources.macro, briefingDate)
      ensures referencesUsed == old(referencesUsed) + refs
    {
      var name := Lookup(x, "name", "");
      if Contains(Lower(name), q) {
        MacroForName(sources, briefingDate, name);
        var inner := GetMacroIndicators(map["indicator_names" := AStrs([name])]);
        items, refs := inner.data.items, inner.references;
      } else {
        items, refs := [], [];
      }
    }

    /** One record of the earnings pass: on a match, the earnings tool with no sector, and its first hit. */
    method EarningsPassOne(x: Record, q: string) returns (items: seq<Item>, refs: seq<Reference>, ghost created: seq<Reference>)
      modifies this
      ensures Gathered(items, refs, created) == EarningsMatch(x, q, sources.earnings, env, briefingDate)
      ensures referencesUsed == old(referencesUsed) + created
    {
      items, refs, created := [], [], [];
      if EarningsHit(x, q) {
        EarningsForAll(sources, briefingDate, env);
        var inner := GetEarningsResults(map["sector" := ANull]);
        created := inner.references;
        var hit := FirstHit(inner.data.items, q);
        if hit.Some? {
          items := [hit.value.(fields := hit.value.fields["type" := "earnings"])];
          refs := inner.references;
        }
      }
    }

    /** The macro pass of `_search_data`. */
    method SearchMacroPass(q: string) returns (items: seq<Item>, refs: seq<Reference>)
      modifies this
      ensures items == SearchMacro(sources.macro, q, sources.macro, briefingDate).items
      ensures refs == SearchMacro(sources.macro, q, sources.macro, briefingDate).returned
      ensures referencesUsed == old(referencesUsed) + SearchMacro(sources.macro, q, sources.macro, briefingDate).created
    {
      var xs := sources.macro;
      ghost var ms := MacroMatches(xs, q, xs, briefingDate);
      items, refs := [], [];
      ghost var log0 := referencesUsed;
      for i := 0 to |xs|
        invariant Gathered(items, refs, refs) == Concat(ms[..i])
        invariant referencesUsed == log0 + refs
      {
        var more, moreRefs := MacroPassOne(xs[i], q);
        MacroMatchesAt(xs, q, xs, briefingDate, i);
        ConcatStep(ms, i);
        SeqUtil.AppendAssoc(log0, refs, moreRefs);
        items, refs := items + more, refs + moreRefs;
      }
      assert ms[..|xs|] == ms;
    }

    /** The news pass of `_search_data`. */
    method SearchNewsPass(q: string) returns (items: seq<Item>, refs: seq<Reference>)
      modifies this
      ensures items == SearchNews(sources.news, q, briefingDate).items
      ensures refs == SearchNews(sources.news, q, briefingDate).returned
      ensures referencesUsed == old(referencesUsed) + refs
    {
      var xs := sources.news;
      items, refs := [], [];
      for i := 0 to |xs|
        invariant items == SearchNews(xs[..i], q, briefingDate).items
        invariant refs == SearchNews(xs[..i], q, briefingDate).returned
        invariant referencesUsed == old(referencesUsed) + refs
      {
        assert xs[..i + 1][..i] == xs[..i];
        if NewsHit(xs[i], q) {
          var it, ref := Report(SearchNewsDraft(xs[i], briefingDate));
          items, refs := items + [it], refs + [ref];
        }
      }
      assert xs[..|xs|] == xs;
    }

    /** The inner loop of the earnings pass: the first item matching the query. */
    method FirstHit(items: seq<Item>, q: string) returns (hit: Option<Item>)
      ensures hit == FirstEarningsHit(items, q)
    {
      var j := 0;
      while j < |items|
        invariant 0 <= j <= |items|
        invariant FirstEarningsHit(items, q) == FirstEarningsHit(items[j..], q)
      {
        assert items[j..][1..] == items[j + 1..];
        if EarningsHit(items[j].fields, q) {
          return Some(items[j]);
        }
        j := j + 1;
      }
      return None;
    }

    /** The earnings pass of `_search_data`. */
    method SearchEarningsPass(q: string) returns (items: seq<Item>, refs: seq<Reference>)
      modifies this
      ensures items == SearchEarnings(sources.earnings, q, sources.earnings, env, briefingDate).items
      ensures refs == SearchEarnings(sources.earnings, q, sources.earnings, env, briefingDate).returned
      ensures referencesUsed == old(referencesUsed) + SearchEarnings(sources.earnings, q, sources.earnings, env, briefingDate).created
    {
      var xs := sources.earnings;
      ghost var ms := EarningsMatches(xs, q, xs, env, briefingDate);
      items, refs := [], [];
      ghost var log0 := referencesUsed;
      ghost var created: seq<Reference> := [];
      for i := 0 to |xs|
        invariant Gathered(items, refs, created) == Concat(ms[..i])
        invariant referencesUsed == log0 + created
      {
        var more, moreRefs, moreCreated := EarningsPassOne(xs[i], q);
        ConcatStep(ms, i);
        SeqUtil.AppendAssoc(log0, created, moreCreated);
        items, refs, created := items + more, refs + moreRefs, created + moreCreated;
      }
      assert ms[..|xs|] == ms;
    }

    /** The calendar pass of `_search_data`. */
    method SearchCalendarPass(q: string) returns (items: seq<Item>, refs: seq<Reference>)
      modifies this
      ensures items == SearchCalendar(sources.calendar, q, briefingDate).items
      ensures refs == SearchCalendar(sources.calendar, q, briefingDate).returned
      ensures referencesUsed == old(referencesUsed) + refs
    {
      var xs := sources.calendar;
      items, refs := [], [];
      for i := 0 to |xs|
        invariant items == SearchCalendar(xs[..i], q, briefingDate).items
        invariant refs == SearchCalendar(xs[..i], q, briefingDate).returned
        invariant referencesUsed == old(referencesUsed) + refs
      {
        assert xs[..i + 1][..i] == xs[..i];
        if Contains(Lower(Lookup(xs[i], "name", "")), q) {
          var it, ref := Report(SearchCalendarDraft(xs[i]));
          items, refs := items + [it], refs + [ref];
        }
      }
      assert xs[..|xs|] == xs;
    }

    method SearchData(args: Args) returns (result: ToolResult)
      modifies this
      ensures result == SearchOutcome(sources, briefingDate, env, args).result
      ensures referencesUsed == old(referencesUsed) + SearchOutcome(sources, briefingDate, env, args).created
    {
      var query := QueryArg(ArgOr(args, "query", AStr("")));
      if query.None? {
        return Failed(Raised("AttributeError"));
      }
      var q := query.value;
      if q == "" {
        return Found(Listed([]), []);
      }
      ghost var log0 := referencesUsed;
      var items1, refs1 := SearchMacroPass(q);
      var items2, refs2 := SearchNewsPass(q);
      var items3, refs3 := SearchEarningsPass(q);
      var items4, refs4 := SearchCalendarPass(q);
      SearchAllParts(sources, q, env, briefingDate);
      SeqUtil.AppendAssoc(log0, SearchMacro(sources.macro, q, sources.macro, briefingDate).created, refs2);
      SeqUtil.AppendAssoc(log0, SearchMacro(sources.macro, q, sources.macro, briefingDate).created + refs2,
                          SearchEarnings(sources.earnings, q, sources.earnings, env, briefingDate).created);
      SeqUtil.AppendAssoc(log0, SearchMacro(sources.macro, q, sources.macro, briefingDate).created + refs2
                          + SearchEarnings(sources.earnings, q, sources.earnings, env, briefingDate).created, refs4);
      result := Found(Listed(items1 + items2 + items3 + items4), refs1 + refs2 + refs3 + refs4);
    }

    /** `execute_tool`: dispatch by name; an unknown name is an error that records nothing. */
    method ExecuteTool(toolName: string, arguments: Args) returns (result: ToolResult)
      modifies this
      ensures result == Respond(sources, briefingDate, env, toolName, arguments).result
      ensures referencesUsed == old(referencesUsed) + Respond(sources, briefingDate, env, toolName, arguments).created
    {
      match toolName
      case "get_macro_indicators" => result := GetMacroIndicators(arguments);
      case "get_calendar_events" => result := GetCalendarEvents(arguments);
      case "get_news_articles" => result := GetNewsArticles(arguments);
      case "get_earnings_results" => result := GetEarningsResults(arguments);
      case "get_fomc_events" => result := GetFomcEvents(arguments);
      case "get_market_summary" => result := GetMarketSummary(arguments);
      case "search_data" => result := SearchData(arguments);
      case _ => result := Failed(UnknownTool(toolName));
    }

    /** `format_references_for_output`: the log grouped by source type, each quote once per group. */
    method FormatReferencesForOutput() returns (text: string)
      ensures text == ReferencesText(referencesUsed)
    {
      var refs := referencesUsed;
      if |refs| == 0 {
        return "";
      }
      var types, byType := GroupByType(refs);
      var lines := [ReferencesHeader, ""];
      for k := 0 to |types|
        invariant lines == [ReferencesHeader, ""] + GroupsLines(refs, types[..k])
      {
        GroupsLinesStep(refs, types, k);
        var group := GroupText(types[k], byType[types[k]]);
        SeqUtil.AppendAssoc([ReferencesHeader, ""], GroupsLines(refs, types[..k]), group);
        lines := lines + group;
      }
      assert types[..|types|] == types;
      text := Join("\n", lines);
    }

    /** `get_all_references` */
    function AllReferences(): (refs: seq<Reference>)
      reads this
      ensures refs == referencesUsed
    {
      referencesUsed
    }
  }
}
