/**
 * The briefing-script schema and `ScriptSourceValidator` of
 * validation_agent/script_validator.py.
 *
 * A script is a list of items, each citing sources of type article (by pk),
 * event (by id) or chart (by ticker).  The validator checks every cited
 * source against the article, event or briefing-script tool and tallies the
 * statuses.  JSON decoding of the script is the `loads` parameter, JSON
 * encoding of a source the codec's `dumps`, and the summary text the
 * `summarize` parameter.
 */
module ScriptValidator {
  import opened Wrappers
  import opened PyStr
  import opened PyDict
  import opened SeqUtil
  import opened ValidationTypes
  import opened SourceTools
  import opened MapSourceTools
  import opened Agent

  // ---------------------------------------------------------------------------
  // The script schema
  // ---------------------------------------------------------------------------

  /** One cited source; `None` is an absent (or null) key. */
  datatype ScriptSource = ScriptSource(
    sourceType: string,
    pk: Option<string>,
    ticker: Option<string>,
    id: Option<string>,
    title: Option<string>,
    startDate: Option<string>,
    endDate: Option<string>,
    date: Option<string>)

  /** `data.get(key)` */
  function GetOpt(data: Record, key: string): (v: Option<string>)
    ensures v.None? <==> key !in data
    ensures v.Some? ==> v.value == data[key]
  {
    if key in data then Some(data[key]) else None
  }

  /** `ScriptSource.from_dict`: an empty id counts as no id. */
  function FromDict(data: Record): ScriptSource {
    ScriptSource(
      Field(data, "type"),
      GetOpt(data, "pk"),
      GetOpt(data, "ticker"),
      if "id" in data && data["id"] != "" then Some(data["id"]) else None,
      GetOpt(data, "title"),
      GetOpt(data, "start_date"),
      GetOpt(data, "end_date"),
      GetOpt(data, "date"))
  }

  /** A field that is set and non-empty, i.e. truthy. */
  predicate Given(v: Option<string>) {
    v.Some? && v.value != ""
  }

  /** `if v: result[key] = v` */
  function Put(d: Record, key: string, v: Option<string>): Record {
    if Given(v) then d[key := v.value] else d
  }

  /** `ScriptSource.to_dict` */
  function ToDict(s: ScriptSource): Record {
    var d0 := map["type" := s.sourceType];
    var d1 := Put(d0, "pk", s.pk);
    var d2 := Put(d1, "ticker", s.ticker);
    var d3 := Put(d2, "id", s.id);
    var d4 := Put(d3, "title", s.title);
    var d5 := Put(d4, "start_date", s.startDate);
    var d6 := Put(d5, "end_date", s.endDate);
    Put(d6, "date", s.date)
  }

  /** The eight key names of the schema are distinct. */
  lemma KeyNamesDistinct()
    ensures |{"type", "pk", "ticker", "id", "title", "start_date", "end_date", "date"}| == 8
  {
    assert "type"[0] == 't' && "type"[1] == 'y' && "date"[0] == 'd' && "title"[1] == 'i' && "ticker"[1] == 'i';
    assert "pk"[0] == 'p' && "id"[0] == 'i' && "title"[2] == 't' && "ticker"[2] == 'c';
  }

  /** `to_dict` always writes the type. */
  lemma ToDictType(s: ScriptSource)
    ensures "type" in ToDict(s) && ToDict(s)["type"] == s.sourceType
  {
    KeyNamesDistinct();
  }

  /** `to_dict` writes an optional field exactly when it is truthy, and writes no other key. */
  lemma ToDictKeys(s: ScriptSource)
    ensures var d := ToDict(s);
      ("pk" in d <==> Given(s.pk))
      && ("ticker" in d <==> Given(s.ticker))
      && ("id" in d <==> Given(s.id))
      && ("title" in d <==> Given(s.title))
      && ("start_date" in d <==> Given(s.startDate))
      && ("end_date" in d <==> Given(s.endDate))
      && ("date" in d <==> Given(s.date))
  {
    KeyNamesDistinct();
  }

  /** `to_dict` writes no key outside the schema. */
  lemma ToDictKeySet(s: ScriptSource)
    ensures ToDict(s).Keys <= {"type", "pk", "ticker", "id", "title", "start_date", "end_date", "date"}
  {
  }

  /** Every optional field is absent or non-empty: the sources `to_dict` loses nothing of. */
  predicate Canonical(s: ScriptSource) {
    (s.pk.None? || Given(s.pk)) && (s.ticker.None? || Given(s.ticker)) && (s.id.None? || Given(s.id))
    && (s.title.None? || Given(s.title)) && (s.startDate.None? || Given(s.startDate))
    && (s.endDate.None? || Given(s.endDate)) && (s.date.None? || Given(s.date))
  }

  /** Reading back what `to_dict` wrote gives the same source, for canonical sources. */
  lemma FromToDict(s: ScriptSource)
    requires Canonical(s)
    ensures FromDict(ToDict(s)) == s
  {
    var d := ToDict(s);
    KeyNamesDistinct();
    ToDictKeys(s);
    ToDictType(s);
    assert GetOpt(d, "pk") == s.pk;
    assert GetOpt(d, "ticker") == s.ticker;
    assert GetOpt(d, "title") == s.title;
    assert GetOpt(d, "start_date") == s.startDate;
    assert GetOpt(d, "end_date") == s.endDate;
    assert GetOpt(d, "date") == s.date;
  }

  /** A source read from a dict with an empty optional value keeps it, so writing it back drops that key. */
  lemma FromDictEmptyTitle(data: Record)
    requires "title" in data && data["title"] == ""
    ensures FromDict(data).title == Some("")
    ensures "title" !in ToDict(FromDict(data))
  {
  }

  /** `ScriptItem`: `time` is not used by the validator and is not modelled. */
  datatype ScriptItem = ScriptItem(id: int, speaker: string, text: string, sources: seq<ScriptSource>)

  /** `BriefingScript`: the chapters are not used by the validator and are not modelled. */
  datatype BriefingScript = BriefingScript(date: string, nutshell: string, userTickers: seq<string>,
                                           scripts: seq<ScriptItem>)

  /** A script item as decoded JSON, before its sources are read. */
  datatype RawItem = RawItem(id: int, speaker: string, text: string, sources: seq<Record>)

  /** A script as decoded JSON. */
  datatype RawScript = RawScript(date: string, nutshell: string, userTickers: seq<string>, scripts: seq<RawItem>)

  /** What `json.loads` makes of the script text. */
  datatype ScriptJson = ScriptDoc(doc: RawScript) | DecodeError(message: string)

  /** `ScriptItem.from_dict` */
  function ItemFromRaw(r: RawItem): (item: ScriptItem)
    ensures |item.sources| == |r.sources|
    ensures forall k :: 0 <= k < |r.sources| ==> item.sources[k] == FromDict(r.sources[k])
  {
    ScriptItem(r.id, r.speaker, r.text, seq(|r.sources|, k requires 0 <= k < |r.sources| => FromDict(r.sources[k])))
  }

  /** `BriefingScript.from_dict` */
  function ScriptFromRaw(r: RawScript): (b: BriefingScript)
    ensures |b.scripts| == |r.scripts|
    ensures forall k :: 0 <= k < |r.scripts| ==> b.scripts[k] == ItemFromRaw(r.scripts[k])
  {
    BriefingScript(r.date, r.nutshell, r.userTickers,
                   seq(|r.scripts|, k requires 0 <= k < |r.scripts| => ItemFromRaw(r.scripts[k])))
  }

  // ---------------------------------------------------------------------------
  // The getters
  // ---------------------------------------------------------------------------

  /** The (item id, source) pairs of one item. */
  function ItemPairs(id: int, sources: seq<ScriptSource>): (ps: seq<(int, ScriptSource)>)
    ensures |ps| == |sources|
    ensures forall k {:trigger ps[k]} :: 0 <= k < |sources| ==> ps[k] == (id, sources[k])
  {
    seq(|sources|, k requires 0 <= k < |sources| => (id, sources[k]))
  }

  /** Every source of the script paired with its item's id, item by item. */
  function AllPairs(items: seq<ScriptItem>): seq<(int, ScriptSource)> {
    if |items| == 0 then []
    else AllPairs(items[..|items| - 1]) + ItemPairs(items[|items| - 1].id, items[|items| - 1].sources)
  }

  /** The number of sources over all items. */
  function SourceCount(items: seq<ScriptItem>): nat {
    if |items| == 0 then 0 else SourceCount(items[..|items| - 1]) + |items[|items| - 1].sources|
  }

  lemma {:induction false} AllPairsLength(items: seq<ScriptItem>)
    ensures |AllPairs(items)| == SourceCount(items)
  {
    if |items| > 0 {
      AllPairsLength(items[..|items| - 1]);
    }
  }

  /** `get_all_sources`: every source with its item's id, in order; as many as there are sources. */
  method GetAllSources(b: BriefingScript) returns (all: seq<(int, ScriptSource)>)
    ensures all == AllPairs(b.scripts)
    ensures |all| == SourceCount(b.scripts)
  {
    all := [];
    var i := 0;
    while i < |b.scripts|
      invariant 0 <= i <= |b.scripts|
      invariant all == AllPairs(b.scripts[..i])
    {
      var item := b.scripts[i];
      var j := 0;
      while j < |item.sources|
        invariant 0 <= j <= |item.sources|
        invariant all == AllPairs(b.scripts[..i]) + ItemPairs(item.id, item.sources[..j])
      {
        all := all + [(item.id, item.sources[j])];
        j := j + 1;
      }
      assert item.sources[..j] == item.sources;
      assert b.scripts[..i + 1][..i] == b.scripts[..i];
      i := i + 1;
    }
    assert b.scripts[..i] == b.scripts;
    AllPairsLength(b.scripts);
  }

  /** An article source's pk, when it is given. */
  function ArticlePk(s: ScriptSource): Option<string> {
    if s.sourceType == "article" && Given(s.pk) then s.pk else None
  }

  /** An event source's id, when it is given. */
  function EventId(s: ScriptSource): Option<string> {
    if s.sourceType == "event" && Given(s.id) then s.id else None
  }

  /** A chart source's ticker, when it is given. */
  function ChartTicker(s: ScriptSource): Option<string> {
    if s.sourceType == "chart" && Given(s.ticker) then s.ticker else None
  }

  /** The keys picked from a list of sources, in order, repeats kept. */
  function PickedKeys(sources: seq<ScriptSource>, key: ScriptSource -> Option<string>): seq<string> {
    if |sources| == 0 then []
    else
      var k := key(sources[|sources| - 1]);
      PickedKeys(sources[..|sources| - 1], key) + (if k.Some? then [k.value] else [])
  }

  /** The keys picked from every item, in order, repeats kept. */
  function KeyList(items: seq<ScriptItem>, key: ScriptSource -> Option<string>): seq<string> {
    if |items| == 0 then []
    else KeyList(items[..|items| - 1], key) + PickedKeys(items[|items| - 1].sources, key)
  }

  /** Some source in the items carries the key. */
  predicate Cited(items: seq<ScriptItem>, key: ScriptSource -> Option<string>, x: string) {
    exists i, j :: 0 <= i < |items| && 0 <= j < |items[i].sources| && key(items[i].sources[j]) == Some(x)
  }

  lemma {:induction false} PickedKeysMembers(sources: seq<ScriptSource>, key: ScriptSource -> Option<string>, x: string)
    ensures x in PickedKeys(sources, key) <==> exists j :: 0 <= j < |sources| && key(sources[j]) == Some(x)
  {
    if |sources| > 0 {
      var init := sources[..|sources| - 1];
      PickedKeysMembers(init, key, x);
      assert forall j :: 0 <= j < |init| ==> init[j] == sources[j];
      if key(sources[|sources| - 1]) == Some(x) {
        assert x in PickedKeys(sources, key);
      }
    }
  }

  lemma {:induction false} KeyListMembers(items: seq<ScriptItem>, key: ScriptSource -> Option<string>, x: string)
    ensures x in KeyList(items, key) <==> Cited(items, key, x)
  {
    if |items| > 0 {
      var n := |items| - 1;
      var init := items[..n];
      KeyListMembers(init, key, x);
      PickedKeysMembers(items[n].sources, key, x);
      assert forall i :: 0 <= i < n ==> init[i] == items[i];
      if Cited(items, key, x) {
        var i, j :| 0 <= i < |items| && 0 <= j < |items[i].sources| && key(items[i].sources[j]) == Some(x);
        if i < n {
          assert Cited(init, key, x);
        }
      }
      if Cited(init, key, x) {
        var i, j :| 0 <= i < |init| && 0 <= j < |init[i].sources| && key(init[i].sources[j]) == Some(x);
        assert key(items[i].sources[j]) == Some(x);
      }
    }
  }

  /** The distinct elements of a list, each at its first occurrence. */
  function Distinct(s: seq<string>): (r: seq<string>)
    ensures NoDuplicates(r)
    ensures forall x :: x in r <==> x in s
  {
    if |s| == 0 then []
    else
      var r0 := Distinct(s[..|s| - 1]);
      var x := s[|s| - 1];
      assert forall y :: y in s <==> y in s[..|s| - 1] || y == x;
      if x in r0 then r0 else r0 + [x]
  }

  /**
   * The getters' common loop: collect the picked keys item by item, then
   * keep each once.  Python's `list(set(...))` leaves the order unspecified;
   * the model keeps first occurrences.
   */
  method DistinctKeys(b: BriefingScript, key: ScriptSource -> Option<string>) returns (keys: seq<string>)
    ensures NoDuplicates(keys)
    ensures forall x :: x in keys <==> Cited(b.scripts, key, x)
  {
    var picked: seq<string> := [];
    var i := 0;
    while i < |b.scripts|
      invariant 0 <= i <= |b.scripts|
      invariant picked == KeyList(b.scripts[..i], key)
    {
      var item := b.scripts[i];
      var j := 0;
      while j < |item.sources|
        invariant 0 <= j <= |item.sources|
        invariant picked == KeyList(b.scripts[..i], key) + PickedKeys(item.sources[..j], key)
      {
        assert item.sources[..j + 1][..j] == item.sources[..j];
        var k := key(item.sources[j]);
        if k.Some? {
          picked := picked + [k.value];
        }
        j := j + 1;
      }
      assert item.sources[..j] == item.sources;
      assert b.scripts[..i + 1][..i] == b.scripts[..i];
      i := i + 1;
    }
    assert b.scripts[..i] == b.scripts;
    keys := Distinct(picked);
    forall x ensures x in keys <==> Cited(b.scripts, key, x) {
      KeyListMembers(b.scripts, key, x);
    }
  }

  /** `get_article_pks`: the distinct non-empty pks of article sources. */
  method GetArticlePks(b: BriefingScript) returns (pks: seq<string>)
    ensures NoDuplicates(pks)
    ensures forall x :: x in pks <==> Cited(b.scripts, ArticlePk, x)
  {
    pks := DistinctKeys(b, ArticlePk);
  }

  /** `get_event_ids`: the distinct non-empty ids of event sources. */
  method GetEventIds(b: BriefingScript) returns (ids: seq<string>)
    ensures NoDuplicates(ids)
    ensures forall x :: x in ids <==> Cited(b.scripts, EventId, x)
  {
    ids := DistinctKeys(b, EventId);
  }

  /** `get_tickers`: the distinct non-empty tickers of chart sources. */
  method GetTickers(b: BriefingScript) returns (tickers: seq<string>)
    ensures NoDuplicates(tickers)
    ensures forall x :: x in tickers <==> Cited(b.scripts, ChartTicker, x)
  {
    tickers := DistinctKeys(b, ChartTicker);
  }

  /** A cited key is the key of a source of the matching type, and is never empty. */
  lemma CitedKeyShape(items: seq<ScriptItem>, x: string)
    ensures Cited(items, ArticlePk, x) ==> (x != "" &&
      exists i, j :: 0 <= i < |items| && 0 <= j < |items[i].sources|
        && items[i].sources[j].sourceType == "article" && items[i].sources[j].pk == Some(x))
    ensures Cited(items, EventId, x) ==> (x != "" &&
      exists i, j :: 0 <= i < |items| && 0 <= j < |items[i].sources|
        && items[i].sources[j].sourceType == "event" && items[i].sources[j].id == Some(x))
    ensures Cited(items, ChartTicker, x) ==> (x != "" &&
      exists i, j :: 0 <= i < |items| && 0 <= j < |items[i].sources|
        && items[i].sources[j].sourceType == "chart" && items[i].sources[j].ticker == Some(x))
  {
  }

  // ---------------------------------------------------------------------------
  // Validating one source
  // ---------------------------------------------------------------------------

  /** The data of the briefing-script tool. */
  datatype BriefingData = BriefingData(articles: Dict, charts: Dict, events: Dict)

  /** The f-string rendering of an optional value. */
  function OptText(v: Option<string>): string {
    if v.Some? then v.value else "None"
  }

  /** The claim text a script item is checked under. */
  function ItemClaim(item: ScriptItem): string {
    "[Script " + IntStr(item.id) + "] " + Prefix(item.text, 100) + "..."
  }

  /** An article source checked against the article tool's data: the pk must be stored. */
  function ArticleSourceMatch(articles: Dict, claim: string, reference: string, pk: string,
                              title: Option<string>): (m: SourceMatch)
    ensures m.sourceType == "article" && m.sourceReference == reference && m.claim == claim
    ensures m.status == NotFound <==> pk !in Keys(articles)
    ensures m.status == Valid <==>
      pk in Keys(articles) && Given(title) && Contains(Lower(Field(Get(articles, pk).value, "title")), Lower(title.value))
    ensures m.status == Partial <==>
      pk in Keys(articles) && !(Given(title) && Contains(Lower(Field(Get(articles, pk).value, "title")), Lower(title.value)))
    ensures m.status != NotFound ==> m.sourceData == Get(articles, pk)
  {
    match Get(articles, pk)
    case None => NoData(claim, "article", reference, NotFound, 0, "Article not found: " + pk)
    case Some(article) =>
      if Given(title) && Contains(Lower(Field(article, "title")), Lower(title.value)) then
        WithData(claim, "article", reference, article, Valid, 95,
                 "Article verified: " + Prefix(Field(article, "title"), 60))
      else
        WithData(claim, "article", reference, article, Partial, 70, "Article found but title may differ")
  }

  /** An event source checked against the event tool's data: the id must be stored. */
  function EventSourceMatch(events: Dict, claim: string, reference: string, id: string,
                            date: Option<string>): (m: SourceMatch)
    ensures m.sourceType == "event" && m.sourceReference == reference && m.claim == claim
    ensures m.status == Valid <==> id in Keys(events)
    ensures m.status == NotFound <==> id !in Keys(events)
    ensures m.status == Valid ==> m.sourceData == Get(events, id)
  {
    match Get(events, id)
    case None => NoData(claim, "event", reference, NotFound, 0, "Event not found: id=" + id)
    case Some(event) =>
      WithData(claim, "event", reference, event, Valid, 95,
               "Event verified: " + Field(event, "title") + " on " + OptText(date))
  }

  /**
   * `_validate_source`: articles and events go to their own tool when it
   * exists and the key is given, else to the briefing-script tool, else ERROR;
   * a chart is PARTIAL; any other type is ERROR.
   */
  function ValidateSource(item: ScriptItem, source: ScriptSource, articles: Option<Dict>, events: Option<Dict>,
                          briefing: Option<BriefingData>, codec: JsonCodec): SourceMatch {
    var claim := ItemClaim(item);
    var reference := codec.dumps(ToDict(source));
    if source.sourceType == "article" then
      if articles.Some? && Given(source.pk) then
        ArticleSourceMatch(articles.value, claim, reference, source.pk.value, source.title)
      else if briefing.Some? then
        BriefingValidate(briefing.value.articles, briefing.value.charts, briefing.value.events, codec, claim, reference)
      else NoData(claim, "article", reference, Error, 0, "No article source tool available")
    else if source.sourceType == "event" then
      if events.Some? && Given(source.id) then
        EventSourceMatch(events.value, claim, reference, source.id.value, source.date)
      else if briefing.Some? then
        BriefingValidate(briefing.value.articles, briefing.value.charts, briefing.value.events, codec, claim, reference)
      else NoData(claim, "event", reference, Error, 0, "No event source tool available")
    else if source.sourceType == "chart" then
      NoData(claim, "chart", reference, Partial, 50,
             "Chart source: " + OptText(source.ticker) + " (" + OptText(source.startDate) + " to "
             + OptText(source.endDate) + "). Price validation requires market data API.")
    else NoData(claim, source.sourceType, reference, Error, 0, "Unknown source type: " + source.sourceType)
  }

  /** A chart source is PARTIAL at 0.5: its prices are not checked. */
  lemma ValidateChartSource(item: ScriptItem, source: ScriptSource, articles: Option<Dict>, events: Option<Dict>,
                            briefing: Option<BriefingData>, codec: JsonCodec)
    requires source.sourceType == "chart"
    ensures var m := ValidateSource(item, source, articles, events, briefing, codec);
      m.status == Partial && m.confidence == 50 && m.sourceType == "chart" && m.claim == ItemClaim(item)
  {
  }

  /** A source of any other type is an ERROR under its own type. */
  lemma ValidateUnknownSource(item: ScriptItem, source: ScriptSource, articles: Option<Dict>, events: Option<Dict>,
                              briefing: Option<BriefingData>, codec: JsonCodec)
    requires source.sourceType !in {"article", "event", "chart"}
    ensures var m := ValidateSource(item, source, articles, events, briefing, codec);
      m.status == Error && m.sourceType == source.sourceType && m.sourceData.None?
  {
  }

  /** An article or event that neither its own tool nor the briefing-script tool can check is an ERROR. */
  lemma ValidateSourceWithoutTool(item: ScriptItem, source: ScriptSource, articles: Option<Dict>, events: Option<Dict>,
                                  codec: JsonCodec)
    requires (source.sourceType == "article" && !(articles.Some? && Given(source.pk)))
          || (source.sourceType == "event" && !(events.Some? && Given(source.id)))
    ensures ValidateSource(item, source, articles, events, None, codec).status == Error
  {
  }

  /** With the article tool at hand and a pk given, the verdict is the article tool's. */
  lemma ValidateArticleSource(item: ScriptItem, source: ScriptSource, articles: Dict, events: Option<Dict>,
                              briefing: Option<BriefingData>, codec: JsonCodec)
    requires source.sourceType == "article" && Given(source.pk)
    ensures var m := ValidateSource(item, source, Some(articles), events, briefing, codec);
      var pk := source.pk.value;
      (m.status == NotFound <==> pk !in Keys(articles))
      && (m.status == Valid <==>
            (pk in Keys(articles) && Given(source.title)
             && Contains(Lower(Field(Get(articles, pk).value, "title")), Lower(source.title.value))))
      && (m.status == Partial <==>
            (pk in Keys(articles) && !(Given(source.title)
             && Contains(Lower(Field(Get(articles, pk).value, "title")), Lower(source.title.value)))))
  {
  }

  /** With the event tool at hand and an id given, the event is VALID exactly when its id is stored. */
  lemma ValidateEventSource(item: ScriptItem, source: ScriptSource, articles: Option<Dict>, events: Dict,
                            briefing: Option<BriefingData>, codec: JsonCodec)
    requires source.sourceType == "event" && Given(source.id)
    ensures var m := ValidateSource(item, source, articles, Some(events), briefing, codec);
      (m.status == Valid <==> source.id.value in Keys(events))
      && (m.status == NotFound <==> source.id.value !in Keys(events))
  {
  }

  // ---------------------------------------------------------------------------
  // The validator
  // ---------------------------------------------------------------------------

  /** How a cited source is judged; in `validate` it is `_validate_source` with the resolved tools. */
  type Judge = (ScriptItem, ScriptSource) -> SourceMatch

  /** `_validate_source` with the tools fixed. */
  function SourceJudge(articles: Option<Dict>, events: Option<Dict>, briefing: Option<BriefingData>,
                       codec: JsonCodec): Judge {
    (item: ScriptItem, source: ScriptSource) => ValidateSource(item, source, articles, events, briefing, codec)
  }

  /** The matches of one item's sources, in order. */
  function ItemMatches(item: ScriptItem, sources: seq<ScriptSource>, judge: Judge): (ms: seq<SourceMatch>)
    ensures |ms| == |sources|
  {
    if |sources| == 0 then []
    else ItemMatches(item, sources[..|sources| - 1], judge) + [judge(item, sources[|sources| - 1])]
  }

  /** The matches of every item's sources, item by item. */
  function ScriptMatches(items: seq<ScriptItem>, judge: Judge): seq<SourceMatch> {
    if |items| == 0 then []
    else
      var last := items[|items| - 1];
      ScriptMatches(items[..|items| - 1], judge) + ItemMatches(last, last.sources, judge)
  }

  /** One claim per cited source. */
  lemma {:induction false} ScriptMatchesLength(items: seq<ScriptItem>, judge: Judge)
    ensures |ScriptMatches(items, judge)| == SourceCount(items)
  {
    if |items| > 0 {
      ScriptMatchesLength(items[..|items| - 1], judge);
    }
  }

  /** Each match is the judgement of the source at the same position of the flattened script. */
  lemma {:induction false} ScriptMatchesPairs(items: seq<ScriptItem>, judge: Judge)
    ensures |ScriptMatches(items, judge)| == |AllPairs(items)|
    ensures forall k :: 0 <= k < |AllPairs(items)| ==>
      exists i :: 0 <= i < |items| && AllPairs(items)[k].0 == items[i].id
        && ScriptMatches(items, judge)[k] == judge(items[i], AllPairs(items)[k].1)
  {
    if |items| > 0 {
      var n := |items| - 1;
      var init := items[..n];
      ScriptMatchesPairs(init, judge);
      var ps := AllPairs(items);
      var ms := ScriptMatches(items, judge);
      var m0 := |AllPairs(init)|;
      forall k | 0 <= k < |ps|
        ensures exists i :: 0 <= i < |items| && ps[k].0 == items[i].id && ms[k] == judge(items[i], ps[k].1)
      {
        if k < m0 {
          var i :| 0 <= i < |init| && AllPairs(init)[k].0 == init[i].id
                   && ScriptMatches(init, judge)[k] == judge(init[i], AllPairs(init)[k].1);
          assert init[i] == items[i];
        } else {
          ItemMatchesAt(items[n], items[n].sources, judge, k - m0);
          assert ms[k] == judge(items[n], ps[k].1);
        }
      }
    }
  }

  lemma {:induction false} ItemMatchesAt(item: ScriptItem, sources: seq<ScriptSource>, judge: Judge, k: int)
    requires 0 <= k < |sources|
    ensures ItemMatches(item, sources, judge)[k] == judge(item, sources[k])
  {
    var n := |sources| - 1;
    if k < n {
      ItemMatchesAt(item, sources[..n], judge, k);
    }
  }

  lemma ItemMatchesStep(item: ScriptItem, sources: seq<ScriptSource>, j: int, judge: Judge)
    requires 0 <= j < |sources|
    ensures ItemMatches(item, sources[..j + 1], judge) == ItemMatches(item, sources[..j], judge) + [judge(item, sources[j])]
  {
    assert sources[..j + 1][..j] == sources[..j];
  }

  /** The inner loop of `validate`: one item's sources, judged and tallied in order. */
  method TallyItem(id: string, ghost before: seq<SourceMatch>, tally: ValidationResult, item: ScriptItem, judge: Judge)
    returns (result: ValidationResult)
    requires tally == Tallied(id, before)
    ensures result == Tallied(id, before + ItemMatches(item, item.sources, judge))
  {
    result := tally;
    var j := 0;
    assert before + ItemMatches(item, item.sources[..0], judge) == before;
    while j < |item.sources|
      invariant 0 <= j <= |item.sources|
      invariant result == Tallied(id, before + ItemMatches(item, item.sources[..j], judge))
    {
      var m := judge(item, item.sources[j]);
      ghost var ms := before + ItemMatches(item, item.sources[..j], judge);
      ItemMatchesStep(item, item.sources, j, judge);
      assert before + ItemMatches(item, item.sources[..j + 1], judge) == ms + [m];
      TallyStep(id, ms, m);
      result := result.(sourceMatches := result.sourceMatches + [m], totalClaims := result.totalClaims + 1,
                        validClaims := result.validClaims + (if m.status == Valid then 1 else 0),
                        invalidClaims := result.invalidClaims + (if m.status == Invalid then 1 else 0),
                        notFoundClaims := result.notFoundClaims + (if m.status == NotFound then 1 else 0));
      j := j + 1;
    }
    assert item.sources[..j] == item.sources;
  }

  /**
   * The loop of `validate`: every source of every item is judged in order,
   * its match appended and exactly one of the valid, invalid and not-found
   * counters raised when its status is one of those.
   */
  method TallySources(id: string, items: seq<ScriptItem>, judge: Judge) returns (result: ValidationResult)
    ensures result == Tallied(id, ScriptMatches(items, judge))
  {
    result := NewResult(id);
    var i := 0;
    while i < |items|
      invariant 0 <= i <= |items|
      invariant result == Tallied(id, ScriptMatches(items[..i], judge))
    {
      result := TallyItem(id, ScriptMatches(items[..i], judge), result, items[i], judge);
      assert items[..i + 1][..i] == items[..i];
      i := i + 1;
    }
    assert items[..i] == items;
  }

  /** No invalid claim, and at most a tenth of the claims not found. */
  predicate SourcesAcceptable(r: ValidationResult) {
    r.invalidClaims == 0 && 10 * r.notFoundClaims <= r.totalClaims
  }

  /** The result of `validate` on a script that decoded. */
  function SourceResult(id: string, b: BriefingScript, judge: Judge,
                        summarize: (BriefingScript, ValidationResult) -> string): ValidationResult {
    var t := Tallied(id, ScriptMatches(b.scripts, judge));
    var r := t.(overallValid := SourcesAcceptable(t));
    r.(summary := summarize(b, r))
  }

  /** The result of `validate` on a script that did not decode. */
  function ParseFailed(id: string, message: string): (r: ValidationResult)
    ensures !r.overallValid && r.errors == ["Failed to parse script JSON: " + message]
    ensures r.totalClaims == 0 && r.sourceMatches == []
  {
    NewResult(id).(errors := ["Failed to parse script JSON: " + message], overallValid := false)
  }

  /**
   * What `validate` promises of a decoded script: one claim per cited source,
   * the counts never exceed the total, and the verdict is no invalid claim
   * with at most 10% not found.
   */
  lemma SourceResultSpec(id: string, b: BriefingScript, judge: Judge,
                         summarize: (BriefingScript, ValidationResult) -> string)
    ensures var r := SourceResult(id, b, judge, summarize);
      r.totalClaims == SourceCount(b.scripts)
      && r.validClaims + r.invalidClaims + r.notFoundClaims <= r.totalClaims
      && (r.overallValid <==> r.invalidClaims == 0 && 10 * r.notFoundClaims <= r.totalClaims)
      && r.errors == [] && r.audienceFitness == Good
  {
    ScriptMatchesLength(b.scripts, judge);
    CountsWithinTotal(ScriptMatches(b.scripts, judge));
  }

  /** A script that decodes to no sources at all passes with zero claims. */
  lemma NoSourcesPass(id: string, b: BriefingScript, judge: Judge,
                      summarize: (BriefingScript, ValidationResult) -> string)
    requires forall i :: 0 <= i < |b.scripts| ==> b.scripts[i].sources == []
    ensures SourceResult(id, b, judge, summarize).totalClaims == 0
    ensures SourceResult(id, b, judge, summarize).overallValid
  {
    NoSourcesEmpty(b.scripts, judge);
  }

  lemma {:induction false} NoSourcesEmpty(items: seq<ScriptItem>, judge: Judge)
    requires forall i :: 0 <= i < |items| ==> items[i].sources == []
    ensures ScriptMatches(items, judge) == []
  {
    if |items| > 0 {
      NoSourcesEmpty(items[..|items| - 1], judge);
    }
  }

  /** The article tool's data, if there is a tool. */
  function ArticleData(t: Option<ArticleSourceTool>): Option<Dict>
    reads if t.Some? then {t.value} else {}
  {
    if t.Some? then Some(t.value.data) else None
  }

  function EventData(t: Option<EventSourceTool>): Option<Dict>
    reads if t.Some? then {t.value} else {}
  {
    if t.Some? then Some(t.value.data) else None
  }

  function BriefingDataOf(t: Option<BriefingScriptSourceTool>): Option<BriefingData>
    reads if t.Some? then {t.value} else {}
  {
    if t.Some? then Some(BriefingData(t.value.articles, t.value.charts, t.value.events)) else None
  }

  /** `self._article_tool or source_tools.get("article")` */
  function ArticleToolOf(own: Option<ArticleSourceTool>, tools: seq<(string, AnyTool)>): Option<ArticleSourceTool> {
    if own.Some? then own
    else
      var t := Get(tools, "article");
      if t.Some? && t.value.ArticleTool? then Some(t.value.article) else None
  }

  function EventToolOf(own: Option<EventSourceTool>, tools: seq<(string, AnyTool)>): Option<EventSourceTool> {
    if own.Some? then own
    else
      var t := Get(tools, "event");
      if t.Some? && t.value.EventTool? then Some(t.value.event) else None
  }

  function BriefingToolOf(own: Option<BriefingScriptSourceTool>, tools: seq<(string, AnyTool)>): Option<BriefingScriptSourceTool> {
    if own.Some? then own
    else
      var t := Get(tools, "briefing_script");
      if t.Some? && t.value.BriefingTool? then Some(t.value.briefing) else None
  }

  class ScriptSourceValidator {
    var articleTool: Option<ArticleSourceTool>
    var eventTool: Option<EventSourceTool>
    var briefingTool: Option<BriefingScriptSourceTool>

    constructor ()
      ensures articleTool.None? && eventTool.None? && briefingTool.None?
    {
      articleTool := None;
      eventTool := None;
      briefingTool := None;
    }

    /** `validator_type` */
    function ValidatorType(): string { "script_source" }

    method SetArticleTool(tool: ArticleSourceTool)
      modifies this
      ensures articleTool == Some(tool) && eventTool == old(eventTool) && briefingTool == old(briefingTool)
    {
      articleTool := Some(tool);
    }

    method SetEventTool(tool: EventSourceTool)
      modifies this
      ensures eventTool == Some(tool) && articleTool == old(articleTool) && briefingTool == old(briefingTool)
    {
      eventTool := Some(tool);
    }

    method SetBriefingTool(tool: BriefingScriptSourceTool)
      modifies this
      ensures briefingTool == Some(tool) && articleTool == old(articleTool) && eventTool == old(eventTool)
    {
      briefingTool := Some(tool);
    }

    /** `validate(script, source_tools, script_id=...)` */
    method Validate(script: string, tools: seq<(string, AnyTool)>, scriptId: string, loads: string -> ScriptJson,
                    codec: JsonCodec, summarize: (BriefingScript, ValidationResult) -> string)
      returns (result: ValidationResult)
      ensures match loads(script)
        case DecodeError(message) => result == ParseFailed(scriptId, message)
        case ScriptDoc(doc) =>
          result == SourceResult(scriptId, ScriptFromRaw(doc),
                                 SourceJudge(ArticleData(ArticleToolOf(articleTool, tools)),
                                             EventData(EventToolOf(eventTool, tools)),
                                             BriefingDataOf(BriefingToolOf(briefingTool, tools)), codec),
                                 summarize)
    {
      var parsed := loads(script);
      if parsed.DecodeError? {
        result := NewResult(scriptId);
        result := result.(errors := result.errors + ["Failed to parse script JSON: " + parsed.message]);
        result := result.(overallValid := false);
        return;
      }
      var b := ScriptFromRaw(parsed.doc);
      var articles := ArticleData(ArticleToolOf(articleTool, tools));
      var events := EventData(EventToolOf(eventTool, tools));
      var briefing := BriefingDataOf(BriefingToolOf(briefingTool, tools));
      result := TallySources(scriptId, b.scripts, SourceJudge(articles, events, briefing, codec));
      result := result.(overallValid := result.invalidClaims == 0 && 10 * result.notFoundClaims <= result.totalClaims);
      result := result.(summary := summarize(b, result));
    }
  }

  // ---------------------------------------------------------------------------
  // The content validator's mappings
  // ---------------------------------------------------------------------------

  /** `ScriptContentValidator._map_status` */
  function ContentStatus(statusText: string): (st: ValidationStatus)
    ensures Lower(statusText) in {"supported", "valid"} ==> st == Valid
    ensures Lower(statusText) in {"unsupported", "invalid"} ==> st == Invalid
    ensures Lower(statusText) in {"exaggerated", "misinterpreted", "partial"} ==> st == Partial
    ensures (Lower(statusText) !in {"supported", "valid", "unsupported", "invalid", "exaggerated", "misinterpreted",
                                    "partial"}) ==> st == NotFound
  {
    var s := Lower(statusText);
    if s == "supported" || s == "valid" then Valid
    else if s == "unsupported" || s == "invalid" then Invalid
    else if s == "exaggerated" || s == "misinterpreted" || s == "partial" then Partial
    else NotFound
  }

  /** `ScriptContentValidator._map_fitness` */
  function ContentFitness(fitnessText: string): (f: AudienceFitness)
    ensures Lower(fitnessText) == "excellent" ==> f == Excellent
    ensures Lower(fitnessText) == "fair" ==> f == Fair
    ensures Lower(fitnessText) == "poor" ==> f == Poor
    ensures Lower(fitnessText) !in {"excellent", "fair", "poor"} ==> f == Good
  {
    var s := Lower(fitnessText);
    if s == "excellent" then Excellent
    else if s == "good" then Good
    else if s == "fair" then Fair
    else if s == "poor" then Poor
    else Good
  }

  /** Both mappings ignore case. */
  lemma ContentMappingsIgnoreCase(s: string)
    ensures ContentStatus(s) == ContentStatus(Lower(s))
    ensures ContentFitness(s) == ContentFitness(Lower(s))
  {
    LowerIdempotent(s);
  }
}
