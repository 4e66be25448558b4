/**
 * The source tools of validation_agent/source_tools.py that key their records
 * in a dictionary: the briefing-script tool (articles by pk, charts by ticker,
 * events by id), the article tool (by pk) and the event tool (by id).
 *
 * A dictionary is a `PyDict` association list, so iteration follows insertion
 * order and a second write to a key replaces the first in place.  JSON files
 * arrive parsed (`JsonData`); `json.loads`/`json.dumps` on a source reference
 * are the fields of `JsonCodec`.
 */
module MapSourceTools {
  import opened Wrappers
  import opened PyStr
  import opened PyDict
  import opened ValidationTypes
  import opened SourceTools

  /** A `Dict[str, Dict]` of the source: records under their keys, in insertion order. */
  type Dict = seq<(string, Record)>

  /** A JSON file as `json.load` returns it: a list of objects, one flat object, an object of objects, or nothing usable. */
  datatype JsonData = JsonList(items: seq<Record>) | JsonRecord(record: Record) | JsonMap(entries: Dict) | Unreadable

  /** `json.loads` of a reference (`None` on a decode error) and `json.dumps` of a reference object. */
  datatype JsonCodec = JsonCodec(loads: string -> Option<Record>, dumps: Record -> string)

  // ---------------------------------------------------------------------------
  // Keyed writes
  // ---------------------------------------------------------------------------

  /** The dictionary after `d[k] = v` for each entry of `es`, in order (also `d.update(es)`). */
  function SetAll(d: Dict, es: Dict): Dict {
    if |es| == 0 then d
    else Set(SetAll(d, es[..|es| - 1]), es[|es| - 1].0, es[|es| - 1].1)
  }

  /** The value of the last entry of `es` with key `k`. */
  function LastValue(es: Dict, k: string): Option<Record> {
    if |es| == 0 then None
    else if es[|es| - 1].0 == k then Some(es[|es| - 1].1)
    else LastValue(es[..|es| - 1], k)
  }

  /** After a run of writes a key holds the value written last, and keys not written keep their old values. */
  lemma {:induction false} SetAllGet(d: Dict, es: Dict, k: string)
    ensures Get(SetAll(d, es), k) == if LastValue(es, k).Some? then LastValue(es, k) else Get(d, k)
  {
    if |es| > 0 {
      var init := es[..|es| - 1];
      SetAllGet(d, init, k);
      GetSet(SetAll(d, init), es[|es| - 1].0, es[|es| - 1].1, k);
    }
  }

  /** Writes never create a second entry for a key. */
  lemma {:induction false} SetAllUnique(d: Dict, es: Dict)
    requires UniqueKeys(d)
    ensures UniqueKeys(SetAll(d, es))
  {
    if |es| > 0 {
      SetAllUnique(d, es[..|es| - 1]);
      SetUnique(SetAll(d, es[..|es| - 1]), es[|es| - 1].0, es[|es| - 1].1);
    }
  }

  /** One more write. */
  lemma SetAllSnoc(d: Dict, es: Dict, k: string, v: Record)
    ensures SetAll(d, es + [(k, v)]) == Set(SetAll(d, es), k, v)
  {
    assert (es + [(k, v)])[..|es|] == es;
  }

  /** `for k, v in entries: d[k] = v` (also `d.update(entries)`). */
  method WriteAll(d: Dict, entries: Dict) returns (r: Dict)
    ensures r == SetAll(d, entries)
  {
    r := d;
    var i := 0;
    while i < |entries|
      invariant 0 <= i <= |entries|
      invariant r == SetAll(d, entries[..i])
    {
      assert entries[..i + 1][..i] == entries[..i];
      r := Set(r, entries[i].0, entries[i].1);
      i := i + 1;
    }
    assert entries[..i] == entries;
  }

  /** The list loop of the loaders: each item with a non-empty key, stamped with the file name, under that key. */
  method WriteKept(d: Dict, items: seq<Record>, key: Record -> string, fileName: string) returns (r: Dict)
    ensures r == SetAll(d, KeptKeyed(items, key, fileName))
  {
    r := d;
    var i := 0;
    while i < |items|
      invariant 0 <= i <= |items|
      invariant r == SetAll(d, KeptKeyed(items[..i], key, fileName))
    {
      var k := key(items[i]);
      if k != "" {
        KeptKeyedWritten(d, items, key, fileName, i);
        r := Set(r, k, Stamp(items[i], fileName));
      } else {
        KeptKeyedSkipped(d, items, key, fileName, i);
      }
      i := i + 1;
    }
    assert items[..i] == items;
  }

  /** The object-of-objects loop of the loaders: every entry, stamped with the file name. */
  method WriteStamped(d: Dict, entries: Dict, fileName: string) returns (r: Dict)
    ensures r == SetAll(d, Stamped(entries, fileName))
  {
    r := d;
    var i := 0;
    while i < |entries|
      invariant 0 <= i <= |entries|
      invariant r == SetAll(d, Stamped(entries[..i], fileName))
    {
      StampedWritten(d, entries, fileName, i);
      r := Set(r, entries[i].0, Stamp(entries[i].1, fileName));
      i := i + 1;
    }
    assert entries[..i] == entries;
  }

  /** `article.get("pk") or article.get("id", "")` */
  function ArticleKey(article: Record): string {
    Or(Field(article, "pk"), Field(article, "id"))
  }

  /** `str(event.get("id", ""))` */
  function EventKey(event: Record): string {
    Field(event, "id")
  }

  /** `str(row.get("id", row.get("event_id", "")))` for a CSV row. */
  function CsvEventKey(row: Record): string {
    if "id" in row then row["id"] else Field(row, "event_id")
  }

  /** Every item under its key, in order. */
  function KeyedBy(items: seq<Record>, key: Record -> string): (es: Dict)
    ensures |es| == |items|
    ensures forall i {:trigger es[i]} :: 0 <= i < |items| ==> es[i] == (key(items[i]), items[i])
  {
    seq(|items|, i requires 0 <= i < |items| => (key(items[i]), items[i]))
  }

  /** Keying one more item writes that item under its key. */
  lemma KeyedStep(d: Dict, items: seq<Record>, i: nat, key: Record -> string)
    requires i < |items|
    ensures SetAll(d, KeyedBy(items[..i + 1], key)) == Set(SetAll(d, KeyedBy(items[..i], key)), key(items[i]), items[i])
  {
    var es := KeyedBy(items[..i + 1], key);
    assert es[..i] == KeyedBy(items[..i], key);
    assert es[i] == (key(items[i]), items[i]);
  }

  /** The items with a non-empty key, each stamped with the file name, under their keys. */
  function KeptKeyed(items: seq<Record>, key: Record -> string, fileName: string): (es: Dict)
    ensures |es| <= |items|
  {
    if |items| == 0 then []
    else
      var last := items[|items| - 1];
      KeptKeyed(items[..|items| - 1], key, fileName)
        + (if key(last) != "" then [(key(last), Stamp(last, fileName))] else [])
  }

  /** One turn of the list loop: an item with a key is written under it, stamped. */
  lemma KeptKeyedWritten(d: Dict, items: seq<Record>, key: Record -> string, fileName: string, i: int)
    requires 0 <= i < |items| && key(items[i]) != ""
    ensures SetAll(d, KeptKeyed(items[..i + 1], key, fileName))
         == Set(SetAll(d, KeptKeyed(items[..i], key, fileName)), key(items[i]), Stamp(items[i], fileName))
  {
    assert items[..i + 1][..i] == items[..i];
    SetAllSnoc(d, KeptKeyed(items[..i], key, fileName), key(items[i]), Stamp(items[i], fileName));
  }

  /** One turn of the object-of-objects loop: the entry is written, stamped. */
  lemma StampedWritten(d: Dict, entries: Dict, fileName: string, i: int)
    requires 0 <= i < |entries|
    ensures SetAll(d, Stamped(entries[..i + 1], fileName))
         == Set(SetAll(d, Stamped(entries[..i], fileName)), entries[i].0, Stamp(entries[i].1, fileName))
  {
    var before := Stamped(entries[..i], fileName);
    assert Stamped(entries[..i + 1], fileName) == before + [(entries[i].0, Stamp(entries[i].1, fileName))];
    SetAllSnoc(d, before, entries[i].0, Stamp(entries[i].1, fileName));
  }

  /** An item without a key is skipped. */
  lemma KeptKeyedSkipped(d: Dict, items: seq<Record>, key: Record -> string, fileName: string, i: int)
    requires 0 <= i < |items| && key(items[i]) == ""
    ensures KeptKeyed(items[..i + 1], key, fileName) == KeptKeyed(items[..i], key, fileName)
  {
    assert items[..i + 1][..i] == items[..i];
  }

  /** Every entry of an object of objects, each stamped with the file name. */
  function Stamped(es: Dict, fileName: string): (r: Dict)
    ensures |r| == |es|
    ensures forall i {:trigger r[i]} :: 0 <= i < |es| ==> r[i] == (es[i].0, Stamp(es[i].1, fileName))
  {
    seq(|es|, i requires 0 <= i < |es| => (es[i].0, Stamp(es[i].1, fileName)))
  }

  // ---------------------------------------------------------------------------
  // Title search over a dictionary
  // ---------------------------------------------------------------------------

  predicate TitleHit(record: Record, needle: string) {
    Contains(Lower(Field(record, "title")), Lower(needle))
  }

  /** `{"type": "article", "pk": pk, **article}` */
  function TagArticle(pk: string, article: Record): Record {
    map["type" := "article", "pk" := pk] + article
  }

  /** `{"type": "event", "id": event_id, **event}` */
  function TagEvent(id: string, event: Record): Record {
    map["type" := "event", "id" := id] + event
  }

  /** `{"pk": pk, **article}` */
  function TagPk(pk: string, article: Record): Record {
    map["pk" := pk] + article
  }

  /** `{"id": event_id, **event}` */
  function TagId(id: string, event: Record): Record {
    map["id" := id] + event
  }

  /** The entries whose title contains `needle` (case-insensitively), tagged, in dictionary order. */
  function TitleMatches(d: Dict, needle: string, tag: (string, Record) -> Record): seq<Record> {
    if |d| == 0 then []
    else
      var (k, v) := d[|d| - 1];
      TitleMatches(d[..|d| - 1], needle, tag) + (if TitleHit(v, needle) then [tag(k, v)] else [])
  }

  /** A title search returns, for each entry whose title matches, that entry tagged with its key, and nothing else. */
  lemma {:induction false} TitleMatchesSpec(d: Dict, needle: string, tag: (string, Record) -> Record)
    ensures |TitleMatches(d, needle, tag)| <= |d|
    ensures forall r :: r in TitleMatches(d, needle, tag) <==>
      exists i :: 0 <= i < |d| && TitleHit(d[i].1, needle) && r == tag(d[i].0, d[i].1)
  {
    if |d| > 0 {
      var init := d[..|d| - 1];
      TitleMatchesSpec(init, needle, tag);
      forall r ensures r in TitleMatches(d, needle, tag) <==>
        exists i :: 0 <= i < |d| && TitleHit(d[i].1, needle) && r == tag(d[i].0, d[i].1)
      {
        if r in TitleMatches(init, needle, tag) {
          var i :| 0 <= i < |init| && TitleHit(init[i].1, needle) && r == tag(init[i].0, init[i].1);
          assert d[i] == init[i];
        }
        if exists i :: 0 <= i < |d| && TitleHit(d[i].1, needle) && r == tag(d[i].0, d[i].1) {
          var i :| 0 <= i < |d| && TitleHit(d[i].1, needle) && r == tag(d[i].0, d[i].1);
          if i < |d| - 1 {
            assert init[i] == d[i];
          }
        }
      }
    }
  }

  /** The title-search loop shared by the three tools. */
  method SearchTitles(d: Dict, needle: string, tag: (string, Record) -> Record) returns (results: seq<Record>)
    ensures results == TitleMatches(d, needle, tag)
  {
    var needleLower := Lower(needle);
    results := [];
    var i := 0;
    while i < |d|
      invariant 0 <= i <= |d|
      invariant results == TitleMatches(d[..i], needle, tag)
    {
      var (key, record) := d[i];
      assert d[..i + 1][..i] == d[..i];
      var title := Field(record, "title");
      if Contains(Lower(title), needleLower) {
        results := results + [tag(key, record)];
      }
      i := i + 1;
    }
    assert d[..i] == d;
  }

  // ---------------------------------------------------------------------------
  // BriefingScriptSourceTool
  // ---------------------------------------------------------------------------

  const BriefingType := "briefing_script"

  /** What `_load_articles` writes for a file: a list by `pk or id`, an object of objects as it stands. */
  function BriefingArticleWrites(json: JsonData): Dict {
    match json
    case JsonList(items) => KeyedBy(items, ArticleKey)
    case JsonMap(entries) => entries
    case _ => []
  }

  /** What `_load_events` writes for a file: a list by `str(id)`, an object of objects as it stands. */
  function BriefingEventWrites(json: JsonData): Dict {
    match json
    case JsonList(items) => KeyedBy(items, EventKey)
    case JsonMap(entries) => entries
    case _ => []
  }

  /** What `_load_charts` writes for a file: only an object of objects. */
  function BriefingChartWrites(json: JsonData): Dict {
    match json
    case JsonMap(entries) => entries
    case _ => []
  }

  /** `search(query)` of the briefing-script tool; it does not look at `_loaded`. */
  function BriefingSearch(articles: Dict, charts: Dict, events: Dict, query: string): seq<Record> {
    if StartsWith(query, "article:") then
      var part := query[8..];
      if StartsWith(part, "pk#") || StartsWith(part, "id#") then
        match Get(articles, part)
        case Some(article) => [map["type" := "article"] + article]
        case None => []
      else TitleMatches(articles, part, TagArticle)
    else if StartsWith(query, "chart:") then
      var ticker := Upper(query[6..]);
      match Get(charts, ticker)
      case Some(chart) => [map["type" := "chart", "ticker" := ticker] + chart]
      case None => []
    else if StartsWith(query, "event:") then
      var part := query[6..];
      if StartsWith(part, "id:") then
        var id := part[3..];
        match Get(events, id)
        case Some(event) => [map["type" := "event", "id" := id] + event]
        case None => []
      else TitleMatches(events, part, TagEvent)
    else
      TitleMatches(articles, query, TagArticle) + TitleMatches(events, query, TagEvent)
  }

  /** `_validate_article`: the reference's pk looked up, then its title compared case-insensitively. */
  function BriefingArticle(articles: Dict, claim: string, ref: Record, dumps: Record -> string): (m: SourceMatch)
    ensures m.sourceType == "article" && m.sourceReference == dumps(ref)
    ensures m.status == NotFound <==> Field(ref, "pk") !in Keys(articles)
    ensures m.status == Valid <==>
      Get(articles, Field(ref, "pk")).Some?
      && Lower(Field(ref, "title")) == Lower(Field(Get(articles, Field(ref, "pk")).value, "title"))
    ensures m.status in {Valid, Partial, NotFound}
    ensures m.status != NotFound ==> m.sourceData == Get(articles, Field(ref, "pk"))
  {
    var pk := Field(ref, "pk");
    var title := Field(ref, "title");
    match Get(articles, pk)
    case Some(article) =>
      var articleTitle := Field(article, "title");
      if Lower(title) == Lower(articleTitle) then
        WithData(claim, "article", dumps(ref), article, Valid, 95, "Article verified: " + Prefix(articleTitle, 80))
      else
        WithData(claim, "article", dumps(ref), article, Partial, 70,
                 "Article found but title differs. Expected: " + Prefix(title, 50) + ", Got: " + Prefix(articleTitle, 50))
    case None =>
      NoData(claim, "article", dumps(ref), NotFound, 0, "Article not found: pk=" + pk)
  }

  /** `_validate_chart`: VALID (0.9) when the ticker's data is cached, else PARTIAL (0.5); never NOT_FOUND. */
  function BriefingChart(charts: Dict, claim: string, ref: Record, dumps: Record -> string): (m: SourceMatch)
    ensures m.sourceType == "chart"
    ensures m.status == (if Field(ref, "ticker") in Keys(charts) then Valid else Partial)
    ensures m.confidence == (if m.status == Valid then 90 else 50)
  {
    var ticker := Field(ref, "ticker");
    match Get(charts, ticker)
    case Some(chart) =>
      WithData(claim, "chart", dumps(ref), chart, Valid, 90,
               "Chart data available for " + ticker + " (" + Field(ref, "start_date") + " to " + Field(ref, "end_date") + ")")
    case None =>
      NoData(claim, "chart", dumps(ref), Partial, 50,
             "Chart data for " + ticker + " not pre-loaded. Requires market data API for full validation.")
  }

  /** Either title contains the other, case-insensitively. */
  predicate TitlesOverlap(a: string, b: string) {
    Contains(Lower(b), Lower(a)) || Contains(Lower(a), Lower(b))
  }

  /** `_validate_event`: the reference's id looked up, then the titles compared either way round. */
  function BriefingEvent(events: Dict, claim: string, ref: Record, dumps: Record -> string): (m: SourceMatch)
    ensures m.sourceType == "event"
    ensures m.status == NotFound <==> Field(ref, "id") !in Keys(events)
    ensures m.status == Valid <==>
      Get(events, Field(ref, "id")).Some?
      && TitlesOverlap(Field(ref, "title"), Field(Get(events, Field(ref, "id")).value, "title"))
    ensures m.status in {Valid, Partial, NotFound}
  {
    var id := Field(ref, "id");
    var title := Field(ref, "title");
    match Get(events, id)
    case Some(event) =>
      var eventTitle := Field(event, "title");
      if Contains(Lower(eventTitle), Lower(title)) || Contains(Lower(title), Lower(eventTitle)) then
        WithData(claim, "event", dumps(ref), event, Valid, 95,
                 "Event verified: " + eventTitle + " on " + Field(ref, "date"))
      else
        WithData(claim, "event", dumps(ref), event, Partial, 70,
                 "Event ID found but title differs. Expected: " + Prefix(title, 50) + ", Got: " + Prefix(eventTitle, 50))
    case None =>
      NoData(claim, "event", dumps(ref), NotFound, 0, "Event not found: id=" + id)
  }

  /** `validate_claim` of the briefing-script tool: the reference is a JSON source object, dispatched on its `type`. */
  function BriefingValidate(articles: Dict, charts: Dict, events: Dict, codec: JsonCodec,
                            claim: string, reference: string): SourceMatch {
    match codec.loads(reference)
    case None =>
      NoData(claim, BriefingType, reference, Error, 0,
             "Could not parse source reference as JSON: " + Prefix(reference, 100))
    case Some(ref) =>
      var sourceType := Field(ref, "type");
      if sourceType == "article" then BriefingArticle(articles, claim, ref, codec.dumps)
      else if sourceType == "chart" then BriefingChart(charts, claim, ref, codec.dumps)
      else if sourceType == "event" then BriefingEvent(events, claim, ref, codec.dumps)
      else NoData(claim, BriefingType, reference, Error, 0, "Unknown source type: " + sourceType)
  }

  /**
   * The briefing-script tool answers ERROR exactly when the reference is not
   * JSON or names a type other than article, chart and event; a chart
   * reference is never NOT_FOUND.
   */
  lemma BriefingValidateErrors(articles: Dict, charts: Dict, events: Dict, codec: JsonCodec,
                               claim: string, reference: string)
    ensures var m := BriefingValidate(articles, charts, events, codec, claim, reference);
      var ref := codec.loads(reference);
      (m.status == Error <==> ref.None? || Field(ref.value, "type") !in {"article", "chart", "event"})
      && (ref.Some? && Field(ref.value, "type") == "chart" ==> m.status != NotFound)
  {
  }

  class BriefingScriptSourceTool {
    var articles: Dict
    var charts: Dict
    var events: Dict
    var loaded: bool

    constructor ()
      ensures articles == [] && charts == [] && events == [] && !loaded
    {
      articles := [];
      charts := [];
      events := [];
      loaded := false;
    }

    /** `add_articles`: each article under `pk or id`, a later one replacing an earlier one with the same key. */
    method AddArticles(items: seq<Record>)
      modifies this
      ensures articles == SetAll(old(articles), KeyedBy(items, ArticleKey))
      ensures charts == old(charts) && events == old(events) && loaded == old(loaded)
    {
      var i := 0;
      ghost var start := articles;
      while i < |items|
        invariant 0 <= i <= |items|
        invariant articles == SetAll(start, KeyedBy(items[..i], ArticleKey))
        invariant charts == old(charts) && events == old(events) && loaded == old(loaded)
      {
        var article := items[i];
        KeyedStep(start, items, i, ArticleKey);
        articles := Set(articles, ArticleKey(article), article);
        i := i + 1;
      }
      assert items[..i] == items;
    }

    /** `add_events`: each event under `str(id)`. */
    method AddEvents(items: seq<Record>)
      modifies this
      ensures events == SetAll(old(events), KeyedBy(items, EventKey))
      ensures articles == old(articles) && charts == old(charts) && loaded == old(loaded)
    {
      var i := 0;
      ghost var start := events;
      while i < |items|
        invariant 0 <= i <= |items|
        invariant events == SetAll(start, KeyedBy(items[..i], EventKey))
        invariant articles == old(articles) && charts == old(charts) && loaded == old(loaded)
      {
        var event := items[i];
        KeyedStep(start, items, i, EventKey);
        events := Set(events, EventKey(event), event);
        i := i + 1;
      }
      assert items[..i] == items;
    }

    /** `add_charts` and `_charts.update`: each chart under its ticker. */
    method AddCharts(entries: Dict)
      modifies this
      ensures charts == SetAll(old(charts), entries)
      ensures articles == old(articles) && events == old(events) && loaded == old(loaded)
    {
      charts := WriteAll(charts, entries);
    }

    /** `_load_articles` for a parsed `articles.json`. */
    method LoadArticles(json: JsonData)
      modifies this
      ensures articles == SetAll(old(articles), BriefingArticleWrites(json))
      ensures charts == old(charts) && events == old(events) && loaded == old(loaded)
    {
      match json {
        case JsonList(items) => AddArticles(items);
        case JsonMap(entries) => articles := WriteAll(articles, entries);
        case _ =>
      }
    }

    /** `_load_events` for a parsed `events.json`. */
    method LoadEvents(json: JsonData)
      modifies this
      ensures events == SetAll(old(events), BriefingEventWrites(json))
      ensures articles == old(articles) && charts == old(charts) && loaded == old(loaded)
    {
      match json {
        case JsonList(items) => AddEvents(items);
        case JsonMap(entries) => events := WriteAll(events, entries);
        case _ =>
      }
    }

    /** `_load_charts` for a parsed `charts.json`. */
    method LoadCharts(json: JsonData)
      modifies this
      ensures charts == SetAll(old(charts), BriefingChartWrites(json))
      ensures articles == old(articles) && events == old(events) && loaded == old(loaded)
    {
      match json {
        case JsonMap(entries) => AddCharts(entries);
        case _ =>
      }
    }

    /**
     * `load_sources(path)`: when the path is a directory, whichever of
     * `articles.json`, `events.json` and `charts.json` it holds are merged into
     * what is already there; the tool is then loaded either way.
     */
    method Load(isDir: bool, articlesFile: Option<JsonData>, eventsFile: Option<JsonData>, chartsFile: Option<JsonData>)
      modifies this
      ensures articles == if isDir && articlesFile.Some? then SetAll(old(articles), BriefingArticleWrites(articlesFile.value)) else old(articles)
      ensures events == if isDir && eventsFile.Some? then SetAll(old(events), BriefingEventWrites(eventsFile.value)) else old(events)
      ensures charts == if isDir && chartsFile.Some? then SetAll(old(charts), BriefingChartWrites(chartsFile.value)) else old(charts)
      ensures loaded
    {
      if isDir {
        if articlesFile.Some? {
          LoadArticles(articlesFile.value);
        }
        if eventsFile.Some? {
          LoadEvents(eventsFile.value);
        }
        if chartsFile.Some? {
          LoadCharts(chartsFile.value);
        }
      }
      loaded := true;
    }

    method Search(query: string) returns (results: seq<Record>)
      ensures results == BriefingSearch(articles, charts, events, query)
    {
      results := [];
      if StartsWith(query, "article:") {
        var part := query[8..];
        if StartsWith(part, "pk#") || StartsWith(part, "id#") {
          var found := Get(articles, part);
          if found.Some? {
            results := results + [map["type" := "article"] + found.value];
          }
        } else {
          results := SearchTitles(articles, part, TagArticle);
        }
      } else if StartsWith(query, "chart:") {
        var ticker := Upper(query[6..]);
        var found := Get(charts, ticker);
        if found.Some? {
          results := results + [map["type" := "chart", "ticker" := ticker] + found.value];
        }
      } else if StartsWith(query, "event:") {
        var part := query[6..];
        if StartsWith(part, "id:") {
          var id := part[3..];
          var found := Get(events, id);
          if found.Some? {
            results := results + [map["type" := "event", "id" := id] + found.value];
          }
        } else {
          results := SearchTitles(events, part, TagEvent);
        }
      } else {
        var fromArticles := SearchTitles(articles, query, TagArticle);
        var fromEvents := SearchTitles(events, query, TagEvent);
        results := fromArticles + fromEvents;
      }
    }

    method ValidateClaim(codec: JsonCodec, claim: string, reference: string) returns (m: SourceMatch)
      ensures m == BriefingValidate(articles, charts, events, codec, claim, reference)
    {
      var parsed := codec.loads(reference);
      if parsed.None? {
        return NoData(claim, BriefingType, reference, Error, 0,
                      "Could not parse source reference as JSON: " + Prefix(reference, 100));
      }
      var ref := parsed.value;
      var sourceType := Field(ref, "type");
      if sourceType == "article" {
        m := BriefingArticle(articles, claim, ref, codec.dumps);
      } else if sourceType == "chart" {
        m := BriefingChart(charts, claim, ref, codec.dumps);
      } else if sourceType == "event" {
        m := BriefingEvent(events, claim, ref, codec.dumps);
      } else {
        m := NoData(claim, BriefingType, reference, Error, 0, "Unknown source type: " + sourceType);
      }
    }
  }

  // ---------------------------------------------------------------------------
  // ArticleSourceTool
  // ---------------------------------------------------------------------------

  const ArticleType := "article"

  /**
   * What `_load_json` writes for one file: list items with a non-empty `pk or
   * id`; a single object that has a `pk` or `id` key; every entry of an object
   * of objects.  Each stored article is stamped with the file name.
   */
  function ArticleFileWrites(fileName: string, json: JsonData): Dict {
    match json
    case JsonList(items) => KeptKeyed(items, ArticleKey, fileName)
    case JsonRecord(r) => if "pk" in r || "id" in r then [(ArticleKey(r), Stamp(r, fileName))] else []
    case JsonMap(entries) => if "pk" in Keys(entries) || "id" in Keys(entries) then [] else Stamped(entries, fileName)
    case Unreadable => []
  }

  /** What `load_sources` writes for the JSON files the path yields, in order. */
  function ArticleLoadWrites(files: seq<(string, JsonData)>): Dict {
    if |files| == 0 then []
    else ArticleLoadWrites(files[..|files| - 1]) + ArticleFileWrites(files[|files| - 1].0, files[|files| - 1].1)
  }

  /** `search(query)` of the article tool: a present `id#`/`pk#` key alone, else a title search. */
  function ArticleSearch(data: Dict, query: string): seq<Record> {
    if (StartsWith(query, "id#") || StartsWith(query, "pk#")) && Get(data, query).Some? then
      [TagPk(query, Get(data, query).value)]
    else TitleMatches(data, query, TagPk)
  }

  /** The pk a reference names: the reference without a leading `pk:`. */
  function ArticleReferenceKey(reference: string): (pk: string)
    ensures StartsWith(reference, "pk:") ==> reference == "pk:" + pk
    ensures !StartsWith(reference, "pk:") ==> pk == reference
  {
    if StartsWith(reference, "pk:") then reference[3..] else reference
  }

  function ArticleValidate(data: Dict, claim: string, reference: string): (m: SourceMatch) {
    var pk := ArticleReferenceKey(reference);
    match Get(data, pk)
    case Some(article) =>
      WithData(claim, ArticleType, pk, article, Valid, 95, "Article found: " + Prefix(Field(article, "title"), 80))
    case None =>
      NoData(claim, ArticleType, pk, NotFound, 0, "Article not found: " + pk)
  }

  /**
   * The article tool is VALID (0.95) exactly when the referenced pk is stored,
   * with the stored article as its data, and NOT_FOUND otherwise; the match
   * names the pk, not the reference.
   */
  lemma ArticleValidateSpec(data: Dict, claim: string, reference: string)
    ensures var m := ArticleValidate(data, claim, reference);
      var pk := ArticleReferenceKey(reference);
      (m.status == Valid <==> pk in Keys(data))
      && (m.status == Valid || m.status == NotFound)
      && m.sourceReference == pk
      && (m.status == Valid ==> m.confidence == 95 && m.sourceData == Get(data, pk))
  {
  }

  /** `pk:K` and `K` name the same article. */
  lemma ArticleReferenceForms(data: Dict, claim: string, pk: string)
    requires !StartsWith(pk, "pk:")
    ensures ArticleValidate(data, claim, "pk:" + pk) == ArticleValidate(data, claim, pk)
  {
    assert StartsWith("pk:" + pk, "pk:");
    assert ("pk:" + pk)[3..] == pk;
  }

  class ArticleSourceTool {
    var data: Dict
    var loaded: bool

    constructor ()
      ensures data == [] && !loaded
    {
      data := [];
      loaded := false;
    }

    /** `_load_json` for one parsed file. */
    method LoadJson(fileName: string, json: JsonData)
      modifies this
      ensures data == SetAll(old(data), ArticleFileWrites(fileName, json)) && loaded == old(loaded)
    {
      match json {
        case JsonList(items) =>
          data := WriteKept(data, items, ArticleKey, fileName);
        case JsonRecord(r) =>
          if "pk" in r || "id" in r {
            var pk := Or(Field(r, "pk"), Field(r, "id"));
            data := Set(data, pk, Stamp(r, fileName));
          }
        case JsonMap(entries) =>
          if !("pk" in Keys(entries) || "id" in Keys(entries)) {
            data := WriteStamped(data, entries, fileName);
          }
        case Unreadable =>
      }
    }

    /** `load_sources`: a fresh dictionary filled from the JSON files the path yields (one file, or a directory's). */
    method Load(files: seq<(string, JsonData)>)
      modifies this
      ensures data == SetAll([], ArticleLoadWrites(files)) && loaded
    {
      data := [];
      var i := 0;
      while i < |files|
        invariant 0 <= i <= |files|
        invariant data == SetAll([], ArticleLoadWrites(files[..i]))
      {
        assert files[..i + 1][..i] == files[..i];
        LoadJson(files[i].0, files[i].1);
        SetAllAppend([], ArticleLoadWrites(files[..i]), ArticleFileWrites(files[i].0, files[i].1));
        i := i + 1;
      }
      assert files[..i] == files;
      loaded := true;
    }

    method Search(query: string) returns (results: seq<Record>)
      ensures results == ArticleSearch(data, query)
    {
      if StartsWith(query, "id#") || StartsWith(query, "pk#") {
        var found := Get(data, query);
        if found.Some? {
          return [TagPk(query, found.value)];
        }
      }
      results := SearchTitles(data, query, TagPk);
    }

    /** `search_by_pk`: `self._data.get(pk)`. */
    method SearchByPk(pk: string) returns (article: Option<Record>)
      ensures article == Get(data, pk)
      ensures article.None? <==> pk !in Keys(data)
    {
      article := Get(data, pk);
    }

    method ValidateClaim(claim: string, reference: string) returns (m: SourceMatch)
      ensures m == ArticleValidate(data, claim, reference)
    {
      var pk := if StartsWith(reference, "pk:") then reference[3..] else reference;
      var found := Get(data, pk);
      if found.Some? {
        m := WithData(claim, ArticleType, pk, found.value, Valid, 95, "Article found: " + Prefix(Field(found.value, "title"), 80));
      } else {
        m := NoData(claim, ArticleType, pk, NotFound, 0, "Article not found: " + pk);
      }
    }
  }

  /** Writing two runs in turn is writing their concatenation. */
  lemma {:induction false} SetAllAppend(d: Dict, a: Dict, b: Dict)
    ensures SetAll(SetAll(d, a), b) == SetAll(d, a + b)
    decreases |b|
  {
    if |b| > 0 {
      var init, last := b[..|b| - 1], b[|b| - 1];
      SetAllAppend(d, a, init);
      SetAllAppendStep(d, a, init, last.0, last.1);
      SnocSplit(a, b);
    } else {
      assert a + b == a;
    }
  }

  /** A non-empty run is its front and its last entry, after any prefix. */
  lemma SnocSplit(a: Dict, b: Dict)
    requires |b| > 0
    ensures b == b[..|b| - 1] + [(b[|b| - 1].0, b[|b| - 1].1)]
    ensures a + b == (a + b[..|b| - 1]) + [(b[|b| - 1].0, b[|b| - 1].1)]
  {
  }

  /** One more write extends both sides of `SetAllAppend`. */
  lemma SetAllAppendStep(d: Dict, a: Dict, init: Dict, k: string, v: Record)
    requires SetAll(SetAll(d, a), init) == SetAll(d, a + init)
    ensures SetAll(SetAll(d, a), init + [(k, v)]) == SetAll(d, (a + init) + [(k, v)])
  {
    SetAllSnoc(SetAll(d, a), init, k, v);
    SetAllSnoc(d, a + init, k, v);
  }

  // ---------------------------------------------------------------------------
  // EventSourceTool
  // ---------------------------------------------------------------------------

  const EventType := "event"

  /** What `_load_json` writes for one file: list items with a non-empty id; every entry of an object of objects. */
  function EventJsonWrites(fileName: string, json: JsonData): Dict {
    match json
    case JsonList(items) => KeptKeyed(items, EventKey, fileName)
    case JsonMap(entries) => Stamped(entries, fileName)
    case _ => []
  }

  /** What `load_sources` writes: the JSON files first, then the CSV files, each in order. */
  function EventLoadWrites(jsonFiles: seq<(string, JsonData)>, csvFiles: seq<(string, seq<Record>)>): Dict {
    if |csvFiles| > 0 then
      var (name, rows) := csvFiles[|csvFiles| - 1];
      EventLoadWrites(jsonFiles, csvFiles[..|csvFiles| - 1]) + KeptKeyed(rows, CsvEventKey, name)
    else if |jsonFiles| > 0 then
      EventLoadWrites(jsonFiles[..|jsonFiles| - 1], []) + EventJsonWrites(jsonFiles[|jsonFiles| - 1].0, jsonFiles[|jsonFiles| - 1].1)
    else []
  }

  /** `search(query)` of the event tool: a query that is a stored id alone, else a title search. */
  function EventSearch(data: Dict, query: string): seq<Record> {
    match Get(data, query)
    case Some(event) => [TagId(query, event)]
    case None => TitleMatches(data, query, TagId)
  }

  function EventValidate(data: Dict, claim: string, reference: string): SourceMatch {
    var id := Strip(reference);
    match Get(data, id)
    case Some(event) =>
      WithData(claim, EventType, id, event, Valid, 95,
               "Event found: " + Field(event, "title") + " on " + Field(event, "date"))
    case None =>
      NoData(claim, EventType, id, NotFound, 0, "Event not found: id=" + id)
  }

  /**
   * The event tool is VALID (0.95) exactly when the trimmed reference is a
   * stored id, with that event as its data, and NOT_FOUND otherwise; the match
   * names the trimmed id.
   */
  lemma EventValidateSpec(data: Dict, claim: string, reference: string)
    ensures var m := EventValidate(data, claim, reference);
      (m.status == Valid <==> Strip(reference) in Keys(data))
      && (m.status == Valid || m.status == NotFound)
      && m.sourceReference == Strip(reference)
      && (m.status == Valid ==> m.confidence == 95 && m.sourceData == Get(data, Strip(reference)))
  {
  }

  class EventSourceTool {
    var data: Dict
    var loaded: bool

    constructor ()
      ensures data == [] && !loaded
    {
      data := [];
      loaded := false;
    }

    /** `_load_json` for one parsed file. */
    method LoadJson(fileName: string, json: JsonData)
      modifies this
      ensures data == SetAll(old(data), EventJsonWrites(fileName, json)) && loaded == old(loaded)
    {
      match json {
        case JsonList(items) =>
          data := WriteKept(data, items, EventKey, fileName);
        case JsonMap(entries) =>
          data := WriteStamped(data, entries, fileName);
        case _ =>
      }
    }

    /** `_load_csv` for one file's rows. */
    method LoadCsv(fileName: string, rows: seq<Record>)
      modifies this
      ensures data == SetAll(old(data), KeptKeyed(rows, CsvEventKey, fileName)) && loaded == old(loaded)
    {
      data := WriteKept(data, rows, CsvEventKey, fileName);
    }

    /** `load_sources`: a fresh dictionary filled from the JSON files, then the CSV files, the path yields. */
    method Load(jsonFiles: seq<(string, JsonData)>, csvFiles: seq<(string, seq<Record>)>)
      modifies this
      ensures data == SetAll([], EventLoadWrites(jsonFiles, csvFiles)) && loaded
    {
      data := [];
      var i := 0;
      while i < |jsonFiles|
        invariant 0 <= i <= |jsonFiles|
        invariant data == SetAll([], EventLoadWrites(jsonFiles[..i], []))
      {
        assert jsonFiles[..i + 1][..i] == jsonFiles[..i];
        LoadJson(jsonFiles[i].0, jsonFiles[i].1);
        SetAllAppend([], EventLoadWrites(jsonFiles[..i], []), EventJsonWrites(jsonFiles[i].0, jsonFiles[i].1));
        i := i + 1;
      }
      assert jsonFiles[..i] == jsonFiles;
      var j := 0;
      while j < |csvFiles|
        invariant 0 <= j <= |csvFiles|
        invariant data == SetAll([], EventLoadWrites(jsonFiles, csvFiles[..j]))
      {
        assert csvFiles[..j + 1][..j] == csvFiles[..j];
        LoadCsv(csvFiles[j].0, csvFiles[j].1);
        SetAllAppend([], EventLoadWrites(jsonFiles, csvFiles[..j]), KeptKeyed(csvFiles[j].1, CsvEventKey, csvFiles[j].0));
        j := j + 1;
      }
      assert csvFiles[..j] == csvFiles;
      loaded := true;
    }

    method Search(query: string) returns (results: seq<Record>)
      ensures results == EventSearch(data, query)
    {
      var found := Get(data, query);
      if found.Some? {
        return [TagId(query, found.value)];
      }
      results := SearchTitles(data, query, TagId);
    }

    /** `search_by_id`: `self._data.get(str(event_id))`. */
    method SearchById(id: string) returns (event: Option<Record>)
      ensures event == Get(data, id)
      ensures event.None? <==> id !in Keys(data)
    {
      event := Get(data, id);
    }

    method ValidateClaim(claim: string, reference: string) returns (m: SourceMatch)
      ensures m == EventValidate(data, claim, reference)
    {
      var id := Strip(reference);
      var found := Get(data, id);
      if found.Some? {
        m := WithData(claim, EventType, id, found.value, Valid, 95,
                      "Event found: " + Field(found.value, "title") + " on " + Field(found.value, "date"));
      } else {
        m := NoData(claim, EventType, id, NotFound, 0, "Event not found: id=" + id);
      }
    }
  }

  /** Every id the event tool stores from a list or a CSV file is non-empty: items without one are skipped. */
  lemma KeptKeysNonEmpty(d: Dict, items: seq<Record>, key: Record -> string, fileName: string)
    requires "" !in Keys(d)
    ensures "" !in Keys(SetAll(d, KeptKeyed(items, key, fileName)))
  {
    var es := KeptKeyed(items, key, fileName);
    SetAllGet(d, es, "");
    LastValueKey(es, "");
    KeptKeyedKeys(items, key, fileName);
  }

  /** The keys a list loop writes are all non-empty. */
  lemma {:induction false} KeptKeyedKeys(items: seq<Record>, key: Record -> string, fileName: string)
    ensures forall i :: 0 <= i < |KeptKeyed(items, key, fileName)| ==> KeptKeyed(items, key, fileName)[i].0 != ""
  {
    if |items| > 0 {
      KeptKeyedKeys(items[..|items| - 1], key, fileName);
    }
  }

  /** A key has a last value in a run of writes exactly when some write uses it. */
  lemma {:induction false} LastValueKey(es: Dict, k: string)
    ensures LastValue(es, k).Some? <==> exists i :: 0 <= i < |es| && es[i].0 == k
  {
    if |es| > 0 {
      var init := es[..|es| - 1];
      LastValueKey(init, k);
      if exists i :: 0 <= i < |init| && init[i].0 == k {
        var i :| 0 <= i < |init| && init[i].0 == k;
        assert es[i] == init[i];
      }
      if exists i :: 0 <= i < |es| && es[i].0 == k {
        var i :| 0 <= i < |es| && es[i].0 == k;
        if i < |es| - 1 {
          assert init[i] == es[i];
        }
      }
    }
  }
}
