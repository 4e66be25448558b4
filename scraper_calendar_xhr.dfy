/**
 * The older calendar scraper's request-based path (scraper/calendar_xhr.py):
 * the event-id to impact lookup built from three importance-filtered page
 * loads, and the loop that turns the table rows of one page into calendar
 * rows.
 *
 * The HTTP requests and the HTML parse are not modelled: a page is given as
 * the `data-id` attributes of its rows, and a row as the attributes and texts
 * that the CSS selectors locate.  The time-zone conversion and the two date
 * parsers are the fields of `Env`; `config.BASE_URL` is `Env.baseUrl`.
 */
module ScraperCalendarXhr {
  import opened Wrappers
  import opened Calendar
  import TeParseUtils
  import ScraperParseUtils

  /**
   * `_collect_event_ids_for_importance(level)` given the `data-id` of every
   * row of the page: the set of ids, with `None` and "" dropped.
   */
  function CollectEventIds(rowIds: seq<Option<string>>): (ids: set<string>)
    ensures "" !in ids
    ensures forall id :: id in ids <==> id != "" && Some(id) in rowIds
  {
    set i | 0 <= i < |rowIds| && rowIds[i].Some? && rowIds[i].value != "" :: rowIds[i].value
  }

  /** The level an event id gets: the highest importance page that lists it. */
  function LevelOf(id: string, level1: set<string>, level2: set<string>, level3: set<string>): Option<int> {
    if id in level3 then Some(3)
    else if id in level2 then Some(2)
    else if id in level1 then Some(1)
    else None
  }

  /**
   * `build_importance_lookup()` given the three id sets: level 1 ids are
   * written first, then level 2, then level 3, each write replacing the last.
   */
  method BuildImportanceLookup(level1: set<string>, level2: set<string>, level3: set<string>)
    returns (importance: map<string, int>)
    ensures importance.Keys == level1 + level2 + level3
    ensures forall id :: id in importance ==> Some(importance[id]) == LevelOf(id, level1, level2, level3)
  {
    importance := map[];
    var rest := level1;
    while rest != {}
      invariant rest <= level1
      invariant importance.Keys == level1 - rest
      invariant forall id :: id in importance ==> importance[id] == 1
      decreases rest
    {
      var id :| id in rest;
      importance := importance[id := 1];
      rest := rest - {id};
    }
    rest := level2;
    while rest != {}
      invariant rest <= level2
      invariant importance.Keys == level1 + (level2 - rest)
      invariant forall id :: id in importance ==> importance[id] == (if id in level2 - rest then 2 else 1)
      decreases rest
    {
      var id :| id in rest;
      importance := importance[id := 2];
      rest := rest - {id};
    }
    rest := level3;
    while rest != {}
      invariant rest <= level3
      invariant importance.Keys == level1 + level2 + (level3 - rest)
      invariant forall id :: id in importance ==>
        importance[id] == (if id in level3 - rest then 3 else if id in level2 then 2 else 1)
      decreases rest
    {
      var id :| id in rest;
      importance := importance[id := 3];
      rest := rest - {id};
    }
  }

  /**
   * A table row as the selectors of `fetch_calendar_rows` see it: `data-id`,
   * the classes of the date cell (the time span's `td`, or the first `td`),
   * the time span's text, the title text, the link's `href`, `data-url`,
   * `data-category`, `data-country` and the four value cells' texts.
   */
  datatype XhrTr = XhrTr(
    dataId: Option<string>,
    dateCellClasses: Option<seq<string>>,
    timeText: Option<string>,
    titleText: Option<string>,
    linkHref: Option<string>,
    dataUrl: Option<string>,
    category: Option<string>,
    country: Option<string>,
    actual: Option<string>,
    previous: Option<string>,
    consensus: Option<string>,
    forecast: Option<string>)

  /** `CalendarRow` of scraper/models.py; times are seconds since the epoch. */
  datatype CalendarRow = CalendarRow(
    eventId: string,
    dtUtc: Option<int>,
    dtKst: Option<int>,
    title: string,
    category: Option<string>,
    impact: Option<int>,
    country: Option<string>,
    rawTimeText: Option<string>,
    sourceUrl: Option<string>,
    actual: Option<string>,
    previous: Option<string>,
    consensus: Option<string>,
    forecast: Option<string>)

  /** The library calls the row loop makes: `strptime`, the dateutil parse, `to_kst`, and `config.BASE_URL`. */
  datatype Env = Env(
    strptime: string -> Option<Date>,
    parse: (string, Date) -> Option<int>,
    toKst: int -> int,
    baseUrl: string)

  /** `if not event_id: continue` */
  predicate HasEventId(tr: XhrTr) {
    tr.dataId.Some? && tr.dataId.value != ""
  }

  /** Python's `a or b` on optional strings. */
  function OrElse(a: Option<string>, b: Option<string>): Option<string> {
    if a.Some? && a.value != "" then a else b
  }

  /** The `CalendarRow` built for one row that has an event id. */
  function MakeRow(tr: XhrTr, importance: map<string, int>, env: Env): (row: CalendarRow)
    requires HasEventId(tr)
    ensures row.eventId == tr.dataId.value
    ensures row.impact == (if tr.dataId.value in importance then Some(importance[tr.dataId.value]) else None)
    ensures row.dtKst.Some? <==> row.dtUtc.Some?
  {
    var dateStr := ScraperParseUtils.ExtractDateFromClasses(tr.dateCellClasses);
    var timeText := TeParseUtils.CleanText(tr.timeText);
    var dtUtc := ScraperParseUtils.ParseTimeToUtc(timeText, dateStr, env.strptime, env.parse);
    var dtKst := if dtUtc.Some? then Some(env.toKst(dtUtc.value)) else None;
    CalendarRow(
      tr.dataId.value,
      dtUtc,
      dtKst,
      TeParseUtils.CleanText(tr.titleText).UnwrapOr(""),
      TeParseUtils.CleanText(tr.category),
      if tr.dataId.value in importance then Some(importance[tr.dataId.value]) else None,
      ScraperParseUtils.FormatCountry(tr.country),
      timeText,
      ScraperParseUtils.ResolveUrl(OrElse(tr.linkHref, tr.dataUrl), env.baseUrl),
      TeParseUtils.CleanText(tr.actual),
      TeParseUtils.CleanText(tr.previous),
      TeParseUtils.CleanText(tr.consensus),
      TeParseUtils.CleanText(tr.forecast))
  }

  /** The rows `fetch_calendar_rows` returns for the rows of a page, in page order. */
  function Fetched(trs: seq<XhrTr>, importance: map<string, int>, env: Env): seq<CalendarRow> {
    if |trs| == 0 then []
    else
      var init := Fetched(trs[..|trs| - 1], importance, env);
      var last := trs[|trs| - 1];
      if HasEventId(last) then init + [MakeRow(last, importance, env)] else init
  }

  /** `fetch_calendar_rows(..., importance_map=importance)` over the rows of the page. */
  method FetchCalendarRows(trs: seq<XhrTr>, importance: map<string, int>, env: Env) returns (rows: seq<CalendarRow>)
    ensures rows == Fetched(trs, importance, env)
  {
    rows := [];
    var i := 0;
    while i < |trs|
      invariant 0 <= i <= |trs|
      invariant rows == Fetched(trs[..i], importance, env)
    {
      var tr := trs[i];
      assert trs[..i + 1][..i] == trs[..i];
      i := i + 1;
      if tr.dataId.None? || tr.dataId.value == "" {
        continue;
      }
      rows := rows + [MakeRow(tr, importance, env)];
    }
    assert trs[..i] == trs;
  }

  /** The event ids of the rows that have one, in page order. */
  function KeptIds(trs: seq<XhrTr>): seq<string> {
    if |trs| == 0 then []
    else
      var last := trs[|trs| - 1];
      KeptIds(trs[..|trs| - 1]) + (if HasEventId(last) then [last.dataId.value] else [])
  }

  function RowIds(rows: seq<CalendarRow>): (ids: seq<string>)
    ensures |ids| == |rows| && forall i :: 0 <= i < |rows| ==> ids[i] == rows[i].eventId
  {
    seq(|rows|, i requires 0 <= i < |rows| => rows[i].eventId)
  }

  /**
   * One row comes out per page row with a non-empty id, in page order, and
   * each carries the lookup's level for its id, or `None` when the lookup
   * does not know it.
   */
  lemma {:induction false} FetchedRows(trs: seq<XhrTr>, importance: map<string, int>, env: Env)
    ensures RowIds(Fetched(trs, importance, env)) == KeptIds(trs)
    ensures forall row :: row in Fetched(trs, importance, env) ==>
      row.eventId != ""
      && row.impact == (if row.eventId in importance then Some(importance[row.eventId]) else None)
  {
    if |trs| > 0 {
      var init := trs[..|trs| - 1];
      var last := trs[|trs| - 1];
      FetchedRows(init, importance, env);
      var prev := Fetched(init, importance, env);
      if HasEventId(last) {
        var row := MakeRow(last, importance, env);
        assert RowIds(prev + [row]) == RowIds(prev) + [row.eventId];
      }
    }
  }
}
