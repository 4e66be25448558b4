/**
 * The adapter that serves the briefing model's tool calls from the
 * validation agent's source tools (closing_briefing/source_tools_adapter.py):
 * the handler table, the seven searches with their filters, the reference
 * log every search appends to, and the text a tool result is given to the
 * model as.
 *
 * A loaded source tool is its `search` as a function together with the two
 * attributes the sources summary reads.  Records are the source tools' flat
 * JSON objects (string values).
 */
module SourceToolsAdapter {
  import opened Wrappers
  import opened PyStr
  import opened BriefingModels
  import VT = ValidationTypes
  import ST = SourceTools
  import BT = BriefingTools
  import SeqUtil

  type Record = VT.Record

  /** A loaded source tool: its search, the size of its `_data`, and its `source_type` when it has one. */
  datatype LoadedTool = LoadedTool(search: string -> seq<Record>, count: nat, sourceType: Option<string>)

  /** The keys `_init_source_tools` stores tools under, in the order it loads them. */
  const ToolOrder: seq<string> := ["calendar", "indicators", "fomc", "news", "yahoo_finance", "market_data", "sec_edgar"]

  /**
   * A reference as `_create_reference` builds it: the optional keys are set
   * only for a truthy argument, and `kind` is the `type` key.
   */
  datatype SourceRef = SourceRef(
    sourceType: string,
    sourceFile: string,
    quote: string,
    date: string,
    provider: Option<string>,
    pk: Option<string>,
    id: Option<string>,
    ticker: Option<string>,
    kind: Option<string>)

  /** The arguments a handler passes to `_create_reference`; `meta` is not modelled. */
  datatype RefDraft = RefDraft(
    sourceType: string,
    quote: string,
    sourceFile: string,
    provider: Option<string>,
    date: Option<string>,
    pk: Option<string>,
    id: Option<string>,
    ticker: Option<string>)

  /** `value if value else None`: the optional key a truthy argument sets. */
  function KeyIf(value: Option<string>): Option<string> {
    if Truthy(value) then value else None
  }

  /** `_create_reference` as a value. */
  function NewRef(d: RefDraft, briefingDate: string): SourceRef {
    SourceRef(d.sourceType, d.sourceFile, d.quote, if Truthy(d.date) then d.date.value else briefingDate,
              KeyIf(d.provider), KeyIf(d.pk), KeyIf(d.id), KeyIf(d.ticker),
              if Truthy(d.ticker) then Some("chart")
              else if Truthy(d.id) then Some("event")
              else if Truthy(d.pk) then Some("article")
              else None)
  }

  /**
   * The reference keeps the draft's texts, falls back to the briefing date,
   * and takes its `type` from the last identifier set: a ticker makes it a
   * chart whatever else is set, an id an event unless there is a ticker, and
   * a pk an article only when it is the only identifier.
   */
  lemma NewRefRule(d: RefDraft, bd: string)
    ensures var r := NewRef(d, bd);
      r.sourceType == d.sourceType && r.quote == d.quote && r.sourceFile == d.sourceFile
      && (Truthy(d.date) ==> r.date == d.date.value) && (!Truthy(d.date) ==> r.date == bd)
      && (r.kind == Some("chart") <==> Truthy(d.ticker))
      && (r.kind == Some("event") <==> Truthy(d.id) && !Truthy(d.ticker))
      && (r.kind == Some("article") <==> Truthy(d.pk) && !Truthy(d.id) && !Truthy(d.ticker))
      && (r.kind.None? <==> !Truthy(d.pk) && !Truthy(d.id) && !Truthy(d.ticker))
      && (r.ticker.Some? <==> Truthy(d.ticker)) && (r.provider.Some? <==> Truthy(d.provider))
  {
  }

  /** The references a handler creates, one per row in order. */
  function Reported(rows: seq<Record>, draft: Record -> RefDraft, bd: string): (refs: seq<SourceRef>)
    ensures |refs| == |rows|
    ensures forall i {:trigger refs[i]} :: 0 <= i < |rows| ==> refs[i] == NewRef(draft(rows[i]), bd)
  {
    if |rows| == 0 then [] else Reported(rows[..|rows| - 1], draft, bd) + [NewRef(draft(rows[|rows| - 1]), bd)]
  }

  /** One entry of the sources summary. */
  datatype SourceInfo = SourceInfo(name: string, count: nat, sourceType: string)

  datatype Data = Rows(rows: seq<Record>) | Overview(briefingDate: string, available: seq<SourceInfo>)

  /**
   * What `execute_tool` returns: data with references, the empty data of a
   * tool that is not loaded with its message, or an error.
   */
  datatype AdapterResult = Found(data: Data, references: seq<SourceRef>) | NotLoaded(message: string) | Error(error: string)

  /** A handler's result and the references it appended to the log. */
  datatype Outcome = Outcome(result: AdapterResult, created: seq<SourceRef>)

  function ListedOutcome(rows: seq<Record>, draft: Record -> RefDraft, bd: string): Outcome {
    var refs := Reported(rows, draft, bd);
    Outcome(Found(Rows(rows), refs), refs)
  }

  /**
   * A handler that raised, and nothing was logged.  `execute_tool` reports
   * `str(e)`, the exception's message; the model names the exception by its
   * class and does not model message texts.
   */
  function Raised(exception: string): Outcome {
    Outcome(Error(exception), [])
  }

  /** The search text: a string argument, or None when the tool's `query.lower()` raises. */
  function QueryArg(a: BT.Arg): Option<string> {
    match a
    case AStr(s) => Some(s)
    case _ => None
  }

  /**
   * A comprehension filter whose test calls a string method on the argument:
   * none when the argument is falsy, the filter for a string, and for any
   * other truthy value an exception at the first row (so only on rows).
   */
  function StringFilter(rows: seq<Record>, a: BT.Arg, keep: (Record, string) -> bool): Option<seq<Record>> {
    if !BT.ArgTruthy(a) then Some(rows)
    else if a.AStr? then Some(ST.Filter(rows, keep, a.s))
    else if |rows| == 0 then Some([])
    else None
  }

  /** A string filter keeps exactly the rows it accepts, or everything when the argument is falsy. */
  lemma StringFilterSpec(rows: seq<Record>, a: BT.Arg, keep: (Record, string) -> bool)
    ensures !BT.ArgTruthy(a) ==> StringFilter(rows, a, keep) == Some(rows)
    ensures BT.ArgTruthy(a) && a.AStr? ==>
      StringFilter(rows, a, keep).Some? && SeqUtil.IsSubsequence(StringFilter(rows, a, keep).value, rows)
      && forall r :: r in StringFilter(rows, a, keep).value <==> r in rows && keep(r, a.s)
    ensures StringFilter(rows, a, keep).None? <==> BT.ArgTruthy(a) && !a.AStr? && |rows| > 0
  {
    if BT.ArgTruthy(a) && a.AStr? {
      ST.FilterSpec(rows, keep, a.s);
    }
  }

  // ---------------------------------------------------------------------------
  // _search_calendar

  /** The date filter occurs in the UTC or the KST time. */
  predicate DateHit(r: Record, date: string) {
    Contains(VT.Field(r, "datetime_utc"), date) || Contains(VT.Field(r, "datetime_kst"), date)
  }

  /** The lower-cased impact equals the importance asked for. */
  predicate ImpactIs(r: Record, importance: string) {
    Lower(VT.Field(r, "impact")) == importance
  }

  /** The importance filter: none for "all"; a value of another type equals no impact. */
  function ImportanceFilter(rows: seq<Record>, importance: BT.Arg): seq<Record> {
    if importance == BT.AStr("all") then rows
    else if importance.AStr? then ST.Filter(rows, ImpactIs, importance.s)
    else []
  }

  function CalendarDraft(e: Record): RefDraft {
    var kst := VT.Field(e, "datetime_kst");
    RefDraft("calendar_events", VT.Field(e, "title") + ", " + kst, BT.Lookup(e, "_source_file", "calendar.csv"),
             None, if kst != "" then Some(BT.PySliceTo(kst, 10)) else None, None,
             Some(BT.Lookup(e, "id", "")), None)
  }

  function CalendarOutcome(tools: map<string, LoadedTool>, bd: string, args: BT.Args): Outcome {
    if "calendar" !in tools then Outcome(NotLoaded("Calendar data not loaded"), [])
    else
      match QueryArg(BT.ArgOr(args, "query", BT.AStr("")))
      case None => Raised("AttributeError")
      case Some(q) =>
        match StringFilter(tools["calendar"].search(q), BT.ArgOr(args, "date", BT.ANull), DateHit)
        case None => Raised("TypeError")
        case Some(dated) =>
          ListedOutcome(ImportanceFilter(dated, BT.ArgOr(args, "importance", BT.AStr("all"))), CalendarDraft, bd)
  }

  // ---------------------------------------------------------------------------
  // _search_indicators

  /** The bucket asked for occurs in the indicator's bucket, both lower-cased. */
  predicate BucketHit(r: Record, bucket: string) {
    Contains(Lower(VT.Field(r, "indicator_bucket")), Lower(bucket))
  }

  function IndicatorDraft(x: Record): RefDraft {
    RefDraft("macro_data",
             VT.Field(x, "indicator_name") + ": " + VT.Field(x, "latest_value") + VT.Field(x, "unit"),
             BT.Lookup(x, "_source_file", "indicators.csv"), None,
             if "obs_date" in x then Some(x["obs_date"]) else None, None, None, None)
  }

  function IndicatorsOutcome(tools: map<string, LoadedTool>, bd: string, args: BT.Args): Outcome {
    if "indicators" !in tools then Outcome(NotLoaded("Indicator data not loaded"), [])
    else
      match QueryArg(BT.ArgOr(args, "query", BT.AStr("")))
      case None => Raised("AttributeError")
      case Some(q) =>
        match StringFilter(tools["indicators"].search(q), BT.ArgOr(args, "bucket", BT.ANull), BucketHit)
        case None => Raised("AttributeError")
        case Some(rows) => ListedOutcome(rows, IndicatorDraft, bd)
  }

  // ---------------------------------------------------------------------------
  // _search_news

  /** The provider asked for occurs in the article's provider, or its source when that is empty. */
  predicate ProviderHit(r: Record, provider: string) {
    Contains(Lower(VT.Or(VT.Field(r, "provider"), VT.Field(r, "source"))), Lower(provider))
  }

  /** `results[:limit]`: an int (a bool counts as one) cuts, None keeps all, anything else raises. */
  function SliceArg(a: BT.Arg): Option<Option<int>> {
    match a
    case AInt(i) => Some(Some(i))
    case ABool(b) => Some(Some(if b then 1 else 0))
    case ANull => Some(None)
    case _ => None
  }

  function Cut(rows: seq<Record>, limit: Option<int>): seq<Record> {
    if limit.Some? then BT.PySliceTo(rows, limit.value) else rows
  }

  /** `x.get(key) or x.get(other)`: a non-empty first value, else the second value or None. */
  function OrGet(x: Record, key: string, other: string): Option<string> {
    if key in x && x[key] != "" then Some(x[key])
    else if other in x then Some(x[other])
    else None
  }

  function NewsDraft(a: Record): RefDraft {
    RefDraft("news_data", "\"" + VT.Or(VT.Field(a, "headline"), VT.Field(a, "title")) + "\"",
             BT.Lookup(a, "_source_file", "news.json"),
             Some(VT.Or(VT.Field(a, "provider"), VT.Field(a, "source"))),
             if "published_date" in a then Some(a["published_date"]) else None,
             OrGet(a, "pk", "id"), None, None)
  }

  function NewsOutcome(tools: map<string, LoadedTool>, bd: string, args: BT.Args): Outcome {
    if "news" !in tools then Outcome(NotLoaded("News data not loaded"), [])
    else
      match QueryArg(BT.ArgOr(args, "query", BT.AStr("")))
      case None => Raised("AttributeError")
      case Some(q) =>
        match StringFilter(tools["news"].search(q), BT.ArgOr(args, "provider", BT.ANull), ProviderHit)
        case None => Raised("AttributeError")
        case Some(kept) =>
          match SliceArg(BT.ArgOr(args, "limit", BT.AInt(10)))
          case None => Raised("TypeError")
          case Some(limit) => ListedOutcome(Cut(kept, limit), NewsDraft, bd)
  }

  // ---------------------------------------------------------------------------
  // _search_fomc and _search_yahoo_finance

  function FomcDraft(e: Record): RefDraft {
    var month := VT.Field(e, "year") + "-" + VT.Field(e, "month");
    RefDraft("fomc_events", VT.Field(e, "title") + ", " + month, VT.Field(e, "filename"), None, Some(month),
             None, None, None)
  }

  function FomcOutcome(tools: map<string, LoadedTool>, bd: string, args: BT.Args): Outcome {
    if "fomc" !in tools then Outcome(NotLoaded("FOMC data not loaded"), [])
    else
      match QueryArg(BT.ArgOr(args, "query", BT.AStr("")))
      case None => Raised("AttributeError")
      case Some(q) => ListedOutcome(tools["fomc"].search(q), FomcDraft, bd)
  }

  function YahooDraft(a: Record): RefDraft {
    var published := VT.Field(a, "publish_et_iso");
    RefDraft("yahoo_finance_news", "\"" + VT.Field(a, "title") + "\"", "DynamoDB:kubig-YahoofinanceNews",
             Some(BT.Lookup(a, "provider", "Yahoo Finance")),
             if published != "" then Some(BT.PySliceTo(published, 10)) else None,
             if "pk" in a then Some(a["pk"]) else None, None, None)
  }

  function YahooOutcome(tools: map<string, LoadedTool>, bd: string, args: BT.Args): Outcome {
    if "yahoo_finance" !in tools then Outcome(NotLoaded("Yahoo Finance data not loaded"), [])
    else
      match QueryArg(BT.ArgOr(args, "query", BT.AStr("")))
      case None => Raised("AttributeError")
      case Some(q) => ListedOutcome(tools["yahoo_finance"].search(q), YahooDraft, bd)
  }

  // ---------------------------------------------------------------------------
  // _search_market_data

  /**
   * The quote of a data point: with the change in percent when `numeric`
   * renders the `change_pct` value (it is a number), without it otherwise.
   */
  function MarketQuote(p: Record, ticker: string, numeric: string -> Option<string>): string {
    var symbol := BT.Lookup(p, "ticker", ticker);
    var close := VT.Field(p, "close");
    match numeric(VT.Field(p, "change_pct"))
    case Some(pct) => symbol + ": " + close + " (" + pct + "%)"
    case None => symbol + ": " + close
  }

  /** The reference date of market data: a non-empty `date` argument, else the briefing date. */
  function MarketDate(a: BT.Arg, bd: string): string {
    if a.AStr? && a.s != "" then a.s else bd
  }

  function MarketDraft(ticker: string, date: string, numeric: string -> Option<string>): Record -> RefDraft {
    p => RefDraft("market_data", MarketQuote(p, ticker, numeric), BT.Lookup(p, "_source_file", "market_data.json"),
                  None, Some(date), None, None, Some(BT.Lookup(p, "ticker", ticker)))
  }

  function MarketOutcome(tools: map<string, LoadedTool>, bd: string, numeric: string -> Option<string>,
                         args: BT.Args): Outcome {
    if "market_data" !in tools then Outcome(NotLoaded("Market data not loaded"), [])
    else
      match QueryArg(BT.ArgOr(args, "ticker", BT.AStr("")))
      case None => Raised("AttributeError")
      case Some(t) =>
        ListedOutcome(tools["market_data"].search(t), MarketDraft(t, MarketDate(BT.ArgOr(args, "date", BT.ANull), bd), numeric), bd)
  }

  // ---------------------------------------------------------------------------
  // _search_sec_edgar

  /** The filing's form type equals the one asked for, both upper-cased. */
  predicate FormIs(r: Record, form: string) {
    Upper(VT.Field(r, "form_type")) == Upper(form)
  }

  function SecDraft(f: Record): RefDraft {
    RefDraft("sec_edgar",
             VT.Field(f, "company") + " " + VT.Field(f, "form_type") + " (" + VT.Field(f, "filing_date") + ")",
             BT.Lookup(f, "_source_file", "sec_filings.json"), None,
             if "filing_date" in f then Some(f["filing_date"]) else None, None, None, None)
  }

  function SecOutcome(tools: map<string, LoadedTool>, bd: string, args: BT.Args): Outcome {
    if "sec_edgar" !in tools then Outcome(NotLoaded("SEC Edgar data not loaded"), [])
    else
      match QueryArg(BT.ArgOr(args, "query", BT.AStr("")))
      case None => Raised("AttributeError")
      case Some(q) =>
        match StringFilter(tools["sec_edgar"].search(q), BT.ArgOr(args, "form_type", BT.ANull), FormIs)
        case None => Raised("AttributeError")
        case Some(rows) => ListedOutcome(rows, SecDraft, bd)
  }

  // ---------------------------------------------------------------------------
  // _get_sources_summary and execute_tool

  /** The summary entries of the tools loaded among `names`, in that order. */
  function SourceInfos(tools: map<string, LoadedTool>, names: seq<string>): seq<SourceInfo> {
    if |names| == 0 then []
    else
      var last := names[|names| - 1];
      SourceInfos(tools, names[..|names| - 1])
      + (if last in tools
         then [SourceInfo(last, tools[last].count,
                          if tools[last].sourceType.Some? then tools[last].sourceType.value else last)]
         else [])
  }

  function SummaryOutcome(tools: map<string, LoadedTool>, bd: string): Outcome {
    Outcome(Found(Overview(bd, SourceInfos(tools, ToolOrder)), []), [])
  }

  /** The names `execute_tool` dispatches on. */
  const HandlerNames: set<string> := {"search_calendar_events", "search_macro_indicators", "search_news_articles",
    "search_fomc_events", "search_yahoo_finance_news", "search_market_data", "search_sec_filings",
    "get_all_sources_summary"}

  /** `execute_tool` as a value. */
  function Execute(tools: map<string, LoadedTool>, bd: string, numeric: string -> Option<string>,
                   name: string, args: BT.Args): (o: Outcome)
    ensures name !in HandlerNames ==> o == Outcome(Error("Unknown tool: " + name), [])
  {
    match name
    case "search_calendar_events" => CalendarOutcome(tools, bd, args)
    case "search_macro_indicators" => IndicatorsOutcome(tools, bd, args)
    case "search_news_articles" => NewsOutcome(tools, bd, args)
    case "search_fomc_events" => FomcOutcome(tools, bd, args)
    case "search_yahoo_finance_news" => YahooOutcome(tools, bd, args)
    case "search_market_data" => MarketOutcome(tools, bd, numeric, args)
    case "search_sec_filings" => SecOutcome(tools, bd, args)
    case "get_all_sources_summary" => SummaryOutcome(tools, bd)
    case _ => Outcome(Error("Unknown tool: " + name), [])
  }

  /**
   * The adapter: the source tools that loaded, the briefing date, and the log
   * of every reference created.  `numeric` renders a `change_pct` value that
   * is a number.
   */
  class BriefingSourceToolAdapter {
    const tools: map<string, LoadedTool>
    const briefingDate: string
    const numeric: string -> Option<string>
    var references: seq<SourceRef>

    /** The date is the configured one when it is non-empty, else today. */
    constructor (tools: map<string, LoadedTool>, configuredDate: Option<string>, today: string,
                 numeric: string -> Option<string>)
      ensures this.tools == tools && this.numeric == numeric && references == []
      ensures briefingDate == if Truthy(configuredDate) then configuredDate.value else today
    {
      this.tools := tools;
      this.briefingDate := if Truthy(configuredDate) then configuredDate.value else today;
      this.numeric := numeric;
      references := [];
    }

    method CreateReference(d: RefDraft) returns (ref: SourceRef)
      modifies this
      ensures ref == NewRef(d, briefingDate)
      ensures references == old(references) + [ref]
    {
      ref := SourceRef(d.sourceType, d.sourceFile, d.quote,
                       if d.date.Some? && d.date.value != "" then d.date.value else briefingDate,
                       None, None, None, None, None);
      if d.provider.Some? && d.provider.value != "" {
        ref := ref.(provider := d.provider);
      }
      if d.pk.Some? && d.pk.value != "" {
        ref := ref.(pk := d.pk, kind := Some("article"));
      }
      if d.id.Some? && d.id.value != "" {
        ref := ref.(id := d.id, kind := Some("event"));
      }
      if d.ticker.Some? && d.ticker.value != "" {
        ref := ref.(ticker := d.ticker, kind := Some("chart"));
      }
      references := references + [ref];
    }

    /** The reference loop every search ends with. */
    method ReferenceEach(rows: seq<Record>, draft: Record -> RefDraft) returns (refs: seq<SourceRef>)
      modifies this
      ensures refs == Reported(rows, draft, briefingDate)
      ensures references == old(references) + refs
    {
      refs := [];
      for i := 0 to |rows|
        invariant refs == Reported(rows[..i], draft, briefingDate)
        invariant references == old(references) + refs
      {
        assert rows[..i + 1][..i] == rows[..i];
        var ref := CreateReference(draft(rows[i]));
        refs := refs + [ref];
      }
      assert rows[..|rows|] == rows;
    }

    method SearchCalendar(args: BT.Args) returns (result: AdapterResult)
      modifies this
      ensures result == CalendarOutcome(tools, briefingDate, args).result
      ensures references == old(references) + CalendarOutcome(tools, briefingDate, args).created
    {
      var query := BT.ArgOr(args, "query", BT.AStr(""));
      var dateFilter := BT.ArgOr(args, "date", BT.ANull);
      var importance := BT.ArgOr(args, "importance", BT.AStr("all"));
      if "calendar" !in tools {
        return NotLoaded("Calendar data not loaded");
      }
      if !query.AStr? {
        return Error("AttributeError");
      }
      var results := tools["calendar"].search(query.s);
      var dated := StringFilter(results, dateFilter, DateHit);
      if dated.None? {
        return Error("TypeError");
      }
      results := ImportanceFilter(dated.value, importance);
      var refs := ReferenceEach(results, CalendarDraft);
      result := Found(Rows(results), refs);
    }

    method SearchIndicators(args: BT.Args) returns (result: AdapterResult)
      modifies this
      ensures result == IndicatorsOutcome(tools, briefingDate, args).result
      ensures references == old(references) + IndicatorsOutcome(tools, briefingDate, args).created
    {
      var query := BT.ArgOr(args, "query", BT.AStr(""));
      var bucket := BT.ArgOr(args, "bucket", BT.ANull);
      if "indicators" !in tools {
        return NotLoaded("Indicator data not loaded");
      }
      if !query.AStr? {
        return Error("AttributeError");
      }
      var results := StringFilter(tools["indicators"].search(query.s), bucket, BucketHit);
      if results.None? {
        return Error("AttributeError");
      }
      var refs := ReferenceEach(results.value, IndicatorDraft);
      result := Found(Rows(results.value), refs);
    }

    method SearchNews(args: BT.Args) returns (result: AdapterResult)
      modifies this
      ensures result == NewsOutcome(tools, briefingDate, args).result
      ensures references == old(references) + NewsOutcome(tools, briefingDate, args).created
    {
      var query := BT.ArgOr(args, "query", BT.AStr(""));
      var providerFilter := BT.ArgOr(args, "provider", BT.ANull);
      var limit := BT.ArgOr(args, "limit", BT.AInt(10));
      if "news" !in tools {
        return NotLoaded("News data not loaded");
      }
      if !query.AStr? {
        return Error("AttributeError");
      }
      var kept := StringFilter(tools["news"].search(query.s), providerFilter, ProviderHit);
      if kept.None? {
        return Error("AttributeError");
      }
      var cut := SliceArg(limit);
      if cut.None? {
        return Error("TypeError");
      }
      var results := Cut(kept.value, cut.value);
      var refs := ReferenceEach(results, NewsDraft);
      result := Found(Rows(results), refs);
    }

    method SearchFomc(args: BT.Args) returns (result: AdapterResult)
      modifies this
      ensures result == FomcOutcome(tools, briefingDate, args).result
      ensures references == old(references) + FomcOutcome(tools, briefingDate, args).created
    {
      var query := BT.ArgOr(args, "query", BT.AStr(""));
      if "fomc" !in tools {
        return NotLoaded("FOMC data not loaded");
      }
      if !query.AStr? {
        return Error("AttributeError");
      }
      var results := tools["fomc"].search(query.s);
      var refs := ReferenceEach(results, FomcDraft);
      result := Found(Rows(results), refs);
    }

    method SearchYahooFinance(args: BT.Args) returns (result: AdapterResult)
      modifies this
      ensures result == YahooOutcome(tools, briefingDate, args).result
      ensures references == old(references) + YahooOutcome(tools, briefingDate, args).created
    {
      var query := BT.ArgOr(args, "query", BT.AStr(""));
      if "yahoo_finance" !in tools {
        return NotLoaded("Yahoo Finance data not loaded");
      }
      if !query.AStr? {
        return Error("AttributeError");
      }
      var results := tools["yahoo_finance"].search(query.s);
      var refs := ReferenceEach(results, YahooDraft);
      result := Found(Rows(results), refs);
    }

    method SearchMarketData(args: BT.Args) returns (result: AdapterResult)
      modifies this
      ensures result == MarketOutcome(tools, briefingDate, numeric, args).result
      ensures references == old(references) + MarketOutcome(tools, briefingDate, numeric, args).created
    {
      var ticker := BT.ArgOr(args, "ticker", BT.AStr(""));
      var date := BT.ArgOr(args, "date", BT.ANull);
      if "market_data" !in tools {
        return NotLoaded("Market data not loaded");
      }
      if !ticker.AStr? {
        return Error("AttributeError");
      }
      var results := tools["market_data"].search(ticker.s);
      var refs := ReferenceEach(results, MarketDraft(ticker.s, MarketDate(date, briefingDate), numeric));
      result := Found(Rows(results), refs);
    }

    method SearchSecEdgar(args: BT.Args) returns (result: AdapterResult)
      modifies this
      ensures result == SecOutcome(tools, briefingDate, args).result
      ensures references == old(references) + SecOutcome(tools, briefingDate, args).created
    {
      var query := BT.ArgOr(args, "query", BT.AStr(""));
      var formType := BT.ArgOr(args, "form_type", BT.ANull);
      if "sec_edgar" !in tools {
        return NotLoaded("SEC Edgar data not loaded");
      }
      if !query.AStr? {
        return Error("AttributeError");
      }
      var results := StringFilter(tools["sec_edgar"].search(query.s), formType, FormIs);
      if results.None? {
        return Error("AttributeError");
      }
      var refs := ReferenceEach(results.value, SecDraft);
      result := Found(Rows(results.value), refs);
    }

    method GetSourcesSummary() returns (result: AdapterResult)
      ensures result == SummaryOutcome(tools, briefingDate).result
    {
      var available: seq<SourceInfo> := [];
      for i := 0 to |ToolOrder|
        invariant available == SourceInfos(tools, ToolOrder[..i])
      {
        assert ToolOrder[..i + 1][..i] == ToolOrder[..i];
        var name := ToolOrder[i];
        if name in tools {
          var tool := tools[name];
          available := available + [SourceInfo(name, tool.count,
                                               if tool.sourceType.Some? then tool.sourceType.value else name)];
        }
      }
      assert ToolOrder[..|ToolOrder|] == ToolOrder;
      result := Found(Overview(briefingDate, available), []);
    }

    method ExecuteTool(toolName: string, arguments: BT.Args) returns (result: AdapterResult)
      modifies this
      ensures result == Execute(tools, briefingDate, numeric, toolName, arguments).result
      ensures references == old(references) + Execute(tools, briefingDate, numeric, toolName, arguments).created
    {
      match toolName
      case "search_calendar_events" => result := SearchCalendar(arguments);
      case "search_macro_indicators" => result := SearchIndicators(arguments);
      case "search_news_articles" => result := SearchNews(arguments);
      case "search_fomc_events" => result := SearchFomc(arguments);
      case "search_yahoo_finance_news" => result := SearchYahooFinance(arguments);
      case "search_market_data" => result := SearchMarketData(arguments);
      case "search_sec_filings" => result := SearchSecEdgar(arguments);
      case "get_all_sources_summary" => result := GetSourcesSummary();
      case _ => result := Error("Unknown tool: " + toolName);
    }

    method GetAllReferences() returns (refs: seq<SourceRef>)
      ensures refs == references
    {
      refs := references;
    }

    method ResetReferences()
      modifies this
      ensures references == []
    {
      references := [];
    }
  }

  // ---------------------------------------------------------------------------
  // format_tool_result_for_llm

  /** A record as it is printed: every key that does not start with an underscore. */
  function DisplayItem(item: Record): (shown: Record)
    ensures forall k :: k in shown <==> k in item && !StartsWith(k, "_")
    ensures forall k :: k in shown ==> shown[k] == item[k]
  {
    map k | k in item && !StartsWith(k, "_") :: item[k]
  }

  /** The tag before a printed record: its source type (or "data") and its file, when either is set. */
  function SourceTag(item: Record): Option<string> {
    var file := VT.Field(item, "_source_file");
    var sourceType := VT.Field(item, "source_type");
    if file == "" && sourceType == "" then None
    else Some("[SOURCE: " + VT.Or(sourceType, "data") + (if file != "" then " | file:" + file else "") + "]")
  }

  function ItemText(item: Record, dumps: Record -> string): string {
    var body := dumps(DisplayItem(item));
    match SourceTag(item)
    case Some(tag) => tag + "\n" + body
    case None => body
  }

  function ItemTexts(items: seq<Record>, dumps: Record -> string): (texts: seq<string>)
    ensures |texts| == |items|
    ensures forall i {:trigger texts[i]} :: 0 <= i < |items| ==> texts[i] == ItemText(items[i], dumps)
  {
    if |items| == 0 then [] else ItemTexts(items[..|items| - 1], dumps) + [ItemText(items[|items| - 1], dumps)]
  }

  /** `json.dumps` for records and for the sources summary. */
  datatype Printer = Printer(record: Record -> string, overview: Data -> string)

  /**
   * The text a result is given to the model as: an error first, then the
   * message of a tool that is not loaded, then "No data found." for empty
   * rows, and otherwise the printed data.
   */
  function ResultText(result: AdapterResult, p: Printer): string {
    match result
    case Error(e) => "Error: " + e
    case NotLoaded(m) => "Info: " + m
    case Found(Rows(rows), _) => if |rows| == 0 then "No data found." else Join("\n\n", ItemTexts(rows, p.record))
    case Found(o, _) => p.overview(o)
  }

  method FormatToolResultForLlm(result: AdapterResult, p: Printer) returns (text: string)
    ensures text == ResultText(result, p)
  {
    match result
    case Error(e) => return "Error: " + e;
    case NotLoaded(m) => return "Info: " + m;
    case Found(Overview(_, _), _) => return p.overview(result.data);
    case Found(Rows(rows), _) =>
      if |rows| == 0 {
        return "No data found.";
      }
      var lines: seq<string> := [];
      for i := 0 to |rows|
        invariant lines == ItemTexts(rows[..i], p.record)
      {
        assert rows[..i + 1][..i] == rows[..i];
        var item := rows[i];
        var body := p.record(DisplayItem(item));
        var file := VT.Field(item, "_source_file");
        var sourceType := VT.Field(item, "source_type");
        if file != "" || sourceType != "" {
          var tag := "[SOURCE: " + (if sourceType != "" then sourceType else "data");
          var fileTag := if file != "" then " | file:" + file else "";
          tag := tag + fileTag + "]";
          lines := lines + [tag + "\n" + body];
        } else {
          lines := lines + [body];
        }
      }
      assert rows[..|rows|] == rows;
      text := Join("\n\n", lines);
  }

  // ---------------------------------------------------------------------------
  // What the adapter promises

  /** The names of the seven searches, each guarded by one tool key. */
  const SearchKeys: map<string, string> := map[
    "search_calendar_events" := "calendar", "search_macro_indicators" := "indicators",
    "search_news_articles" := "news", "search_fomc_events" := "fomc",
    "search_yahoo_finance_news" := "yahoo_finance", "search_market_data" := "market_data",
    "search_sec_filings" := "sec_edgar"]

  /**
   * A search whose tool is not loaded answers with a message and empty data
   * and logs nothing; an unknown name is an error that logs nothing either.
   */
  lemma NotLoadedAnswers(tools: map<string, LoadedTool>, bd: string, numeric: string -> Option<string>,
                         name: string, args: BT.Args)
    ensures name in SearchKeys && SearchKeys[name] !in tools ==>
      Execute(tools, bd, numeric, name, args).result.NotLoaded?
      && Execute(tools, bd, numeric, name, args).created == []
    ensures name !in HandlerNames ==>
      Execute(tools, bd, numeric, name, args) == Outcome(Error("Unknown tool: " + name), [])
  {
  }

  /** With no tool loaded, no call creates a reference, and the summary lists no source. */
  lemma NothingLoaded(bd: string, numeric: string -> Option<string>, name: string, args: BT.Args)
    ensures Execute(map[], bd, numeric, name, args).created == []
    ensures name == "get_all_sources_summary" ==>
      Execute(map[], bd, numeric, name, args).result == Found(Overview(bd, []), [])
  {
    assert forall names: seq<string> :: SourceInfos(map[], names) == [] by {
      forall names: seq<string> ensures SourceInfos(map[], names) == [] {
        NoInfos(names);
      }
    }
  }

  lemma {:induction false} NoInfos(names: seq<string>)
    ensures SourceInfos(map[], names) == []
  {
    if |names| > 0 {
      NoInfos(names[..|names| - 1]);
    }
  }

  /**
   * Every call logs exactly the references it returns: a listed result's
   * references, one per row, are the new log entries, and an error or a
   * missing tool logs none.
   */
  lemma ReturnedAreLogged(tools: map<string, LoadedTool>, bd: string, numeric: string -> Option<string>,
                          name: string, args: BT.Args)
    ensures var o := Execute(tools, bd, numeric, name, args);
      (o.result.Found? ==> o.result.references == o.created)
      && (o.result.Found? && o.result.data.Rows? ==> |o.created| == |o.result.data.rows|)
      && (!o.result.Found? ==> o.created == [])
  {
  }

  /**
   * The calendar search keeps, in order, exactly the found events that
   * contain the date filter (when one is given) and have the importance
   * asked for (unless it is "all").
   */
  lemma CalendarFiltered(tools: map<string, LoadedTool>, bd: string, args: BT.Args)
    requires "calendar" in tools
    requires BT.ArgOr(args, "query", BT.AStr("")).AStr?
    ensures var o := CalendarOutcome(tools, bd, args);
      var found := tools["calendar"].search(BT.ArgOr(args, "query", BT.AStr("")).s);
      var date := BT.ArgOr(args, "date", BT.ANull);
      var importance := BT.ArgOr(args, "importance", BT.AStr("all"));
      o.result.Found? && o.result.data.Rows? ==>
        SeqUtil.IsSubsequence(o.result.data.rows, found)
        && forall r :: r in o.result.data.rows <==>
             r in found
             && (BT.ArgTruthy(date) ==> date.AStr? && DateHit(r, date.s))
             && (importance != BT.AStr("all") ==> importance.AStr? && ImpactIs(r, importance.s))
  {
    var found := tools["calendar"].search(BT.ArgOr(args, "query", BT.AStr("")).s);
    var date := BT.ArgOr(args, "date", BT.ANull);
    var importance := BT.ArgOr(args, "importance", BT.AStr("all"));
    StringFilterSpec(found, date, DateHit);
    var dated := StringFilter(found, date, DateHit);
    if dated.Some? {
      if !BT.ArgTruthy(date) {
        SeqUtil.SubsequenceRefl(found);
      }
      if importance != BT.AStr("all") && importance.AStr? {
        ST.FilterSpec(dated.value, ImpactIs, importance.s);
        SeqUtil.SubsequenceTrans(ImportanceFilter(dated.value, importance), dated.value, found);
      }
    }
  }

  /**
   * The news search filters by provider first and cuts afterwards: its rows
   * are a prefix of the provider's articles, at most `limit` of them for a
   * non-negative limit and all but the last `-limit` for a negative one.
   */
  lemma NewsLimited(tools: map<string, LoadedTool>, bd: string, args: BT.Args)
    requires "news" in tools && BT.ArgOr(args, "query", BT.AStr("")).AStr?
    ensures var o := NewsOutcome(tools, bd, args);
      var found := tools["news"].search(BT.ArgOr(args, "query", BT.AStr("")).s);
      var provider := BT.ArgOr(args, "provider", BT.ANull);
      var kept := StringFilter(found, provider, ProviderHit);
      o.result.Found? ==>
        kept.Some?
        && var rows := o.result.data.rows;
        rows == kept.value[..|rows|]
        && (forall r :: r in rows ==> r in found && (provider.AStr? && provider.s != "" ==> ProviderHit(r, provider.s)))
        && (BT.ArgOr(args, "limit", BT.AInt(10)) == BT.AInt(10) ==> |rows| == if |kept.value| < 10 then |kept.value| else 10)
        && (forall n :: BT.ArgOr(args, "limit", BT.AInt(10)) == BT.AInt(n) && n >= 0 ==> |rows| <= n)
        && (forall n :: BT.ArgOr(args, "limit", BT.AInt(10)) == BT.AInt(n) && n < 0 ==>
              |rows| == if |kept.value| + n < 0 then 0 else |kept.value| + n)
  {
    var found := tools["news"].search(BT.ArgOr(args, "query", BT.AStr("")).s);
    var provider := BT.ArgOr(args, "provider", BT.ANull);
    var limit := BT.ArgOr(args, "limit", BT.AInt(10));
    NewsRows(tools, bd, args);
    StringFilterSpec(found, provider, ProviderHit);
    var kept := StringFilter(found, provider, ProviderHit);
    if kept.Some? && SliceArg(limit).Some? {
      CutBounds(kept.value, limit);
    }
  }

  /** The news rows are the provider-filtered articles cut by the limit. */
  lemma NewsRows(tools: map<string, LoadedTool>, bd: string, args: BT.Args)
    requires "news" in tools && BT.ArgOr(args, "query", BT.AStr("")).AStr?
    ensures var o := NewsOutcome(tools, bd, args);
      var found := tools["news"].search(BT.ArgOr(args, "query", BT.AStr("")).s);
      var kept := StringFilter(found, BT.ArgOr(args, "provider", BT.ANull), ProviderHit);
      var limit := SliceArg(BT.ArgOr(args, "limit", BT.AInt(10)));
      o.result.Found? ==>
        kept.Some? && limit.Some? && o.result.data.Rows? && o.result.data.rows == Cut(kept.value, limit.value)
  {
  }

  /** A slice `[:limit]` keeps a prefix: the first `limit`, or all but the last `-limit`. */
  lemma CutBounds(kept: seq<Record>, a: BT.Arg)
    requires SliceArg(a).Some?
    ensures var rows := Cut(kept, SliceArg(a).value);
      rows == kept[..|rows|]
      && (a == BT.AInt(10) ==> |rows| == if |kept| < 10 then |kept| else 10)
      && (forall n :: a == BT.AInt(n) && n >= 0 ==> |rows| <= n)
      && (forall n :: a == BT.AInt(n) && n < 0 ==> |rows| == if |kept| + n < 0 then 0 else |kept| + n)
  {
  }

  /** The SEC search keeps exactly the filings whose form type equals the one asked for, ignoring case. */
  lemma SecFiltered(tools: map<string, LoadedTool>, bd: string, args: BT.Args, form: string)
    requires "sec_edgar" in tools && BT.ArgOr(args, "query", BT.AStr("")).AStr?
    requires BT.ArgOr(args, "form_type", BT.ANull) == BT.AStr(form) && form != ""
    ensures var o := SecOutcome(tools, bd, args);
      var found := tools["sec_edgar"].search(BT.ArgOr(args, "query", BT.AStr("")).s);
      o.result.Found? && o.result.data.Rows?
      && SeqUtil.IsSubsequence(o.result.data.rows, found)
      && forall r :: r in o.result.data.rows <==> r in found && Upper(VT.Field(r, "form_type")) == Upper(form)
  {
    var found := tools["sec_edgar"].search(BT.ArgOr(args, "query", BT.AStr("")).s);
    StringFilterSpec(found, BT.AStr(form), FormIs);
  }

  /**
   * The sources summary lists each loaded tool once, in load order, and
   * nothing that is not loaded.
   */
  lemma {:induction false} SourceInfosExact(tools: map<string, LoadedTool>, names: seq<string>)
    requires SeqUtil.NoDuplicates(names)
    ensures var infos := SourceInfos(tools, names);
      |infos| <= |names|
      && (forall i :: 0 <= i < |infos| ==> infos[i].name in tools && infos[i].name in names
                                           && infos[i].count == tools[infos[i].name].count)
      && (forall n :: n in names && n in tools ==> exists i :: 0 <= i < |infos| && infos[i].name == n)
      && (forall i, j :: 0 <= i < j < |infos| ==> infos[i].name != infos[j].name)
  {
    if |names| > 0 {
      var init := names[..|names| - 1];
      var last := names[|names| - 1];
      SourceInfosExact(tools, init);
      var infos := SourceInfos(tools, names);
      var before := SourceInfos(tools, init);
      assert names == init + [last];
      forall n | n in names && n in tools ensures exists i :: 0 <= i < |infos| && infos[i].name == n {
        if n != last {
          assert n in init;
          var i :| 0 <= i < |before| && before[i].name == n;
          assert infos[i] == before[i];
        } else {
          assert infos[|infos| - 1].name == n;
        }
      }
      forall i, j | 0 <= i < j < |infos| ensures infos[i].name != infos[j].name {
        if j == |before| {
          assert infos[i] == before[i];
          assert before[i].name in init;
          var k :| 0 <= k < |init| && init[k] == before[i].name;
          assert names[k] == init[k];
        }
      }
    }
  }

  /** Every loaded tool appears in the summary: the names of the loaded tools are load-order keys. */
  lemma SummaryListsLoaded(tools: map<string, LoadedTool>, bd: string)
    requires forall n :: n in tools ==> n in ToolOrder
    ensures var infos := SummaryOutcome(tools, bd).result.data.available;
      (forall n :: n in tools <==> exists i :: 0 <= i < |infos| && infos[i].name == n)
      && |infos| == |tools|
  {
    var infos := SourceInfos(tools, ToolOrder);
    SourceInfosExact(tools, ToolOrder);
    var names := set i | 0 <= i < |infos| :: infos[i].name;
    assert names == tools.Keys;
    assert |names| == |infos| by {
      InjectiveNames(infos);
    }
  }

  /** A list of entries with distinct names has as many names as entries. */
  lemma {:induction false} InjectiveNames(infos: seq<SourceInfo>)
    requires forall i, j :: 0 <= i < j < |infos| ==> infos[i].name != infos[j].name
    ensures |set i | 0 <= i < |infos| :: infos[i].name| == |infos|
  {
    if |infos| > 0 {
      var init := infos[..|infos| - 1];
      InjectiveNames(init);
      var s := set i | 0 <= i < |infos| :: infos[i].name;
      var s0 := set i | 0 <= i < |init| :: init[i].name;
      assert s == s0 + {infos[|infos| - 1].name};
      assert infos[|infos| - 1].name !in s0;
    }
  }

  /**
   * The text of a result puts an error first, then a missing tool's
   * message, then "No data found." for empty rows; a printed record never
   * shows an underscore key, and one with a source file or type is tagged.
   */
  lemma ResultTextShape(result: AdapterResult, p: Printer)
    ensures result.Error? ==> ResultText(result, p) == "Error: " + result.error
    ensures result.NotLoaded? ==> ResultText(result, p) == "Info: " + result.message
    ensures result.Found? && result.data == Rows([]) ==> ResultText(result, p) == "No data found."
    ensures result.Found? && result.data.Rows? && |result.data.rows| > 0 ==>
      var item := result.data.rows[0];
      StartsWith(ResultText(result, p), ItemText(item, p.record))
      && (SourceTag(item).Some? ==> StartsWith(ResultText(result, p), "[SOURCE: "))
  {
    if result.Found? && result.data.Rows? && |result.data.rows| > 0 {
      var texts := ItemTexts(result.data.rows, p.record);
      JoinStartsWithFirst("\n\n", texts);
      var item := result.data.rows[0];
      if SourceTag(item).Some? {
        var tag := SourceTag(item).value;
        assert StartsWith(tag, "[SOURCE: ");
        assert StartsWith(ItemText(item, p.record), "[SOURCE: ");
      }
    }
  }
}
