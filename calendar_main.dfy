/**
 * The row filter and the rolling date window of the calendar scraper's
 * command-line driver (te_calendar_scraper/main.py).
 *
 * Times are whole seconds on the Korean (KST, UTC+9, no daylight saving)
 * wall clock; the UTC-to-KST conversion of the time-zone library is the
 * parameter `toKst`, and "now" is a parameter instead of a clock read.
 */
module CalendarMain {
  import opened Wrappers
  import opened SeqUtil

  const SecondsPerDay: int := 86400
  /** `config.COUNTRY` */
  const Country: string := "United States"
  /** `config.IMPACT_ALLOWED` */
  const ImpactAllowed: set<int> := {1, 2, 3}

  /** `CalendarRow` (scraper/models.py); the two times are optional. */
  datatype CalendarRow = CalendarRow(
    dtUtc: Option<int>,
    dtKst: Option<int>,
    title: string,
    category: Option<string>,
    impact: Option<int>,
    country: Option<string>,
    rawTimeText: Option<string>,
    sourceUrl: Option<string>)

  /** The dict `filter_rows` appends for a kept row. */
  datatype FilteredRow = FilteredRow(
    datetimeUtc: Option<int>,
    datetimeKst: int,
    title: string,
    category: Option<string>,
    impact: Option<int>,
    country: Option<string>,
    rawTimeText: Option<string>,
    sourceUrl: Option<string>)

  /** Midnight of the day holding `t`: `.replace(hour=0, minute=0, second=0)`. */
  function DayStart(t: int): (s: int)
    ensures s % SecondsPerDay == 0
    ensures s <= t < s + SecondsPerDay
  {
    t - t % SecondsPerDay
  }

  /**
   * `date_window_kst()` given "now": from midnight seven days back to
   * 23:59:59 seven days ahead.
   */
  function DateWindowKst(now: int): (w: (int, int))
    ensures w.0 % SecondsPerDay == 0
    ensures w.0 <= now - 7 * SecondsPerDay < w.0 + SecondsPerDay
    ensures w.1 % SecondsPerDay == SecondsPerDay - 1
    ensures w.1 - (SecondsPerDay - 1) <= now + 7 * SecondsPerDay <= w.1
  {
    (DayStart(now - 7 * SecondsPerDay), DayStart(now + 7 * SecondsPerDay) + (SecondsPerDay - 1))
  }

  /** The window always holds "now" and spans exactly fifteen calendar days. */
  lemma DateWindowSpan(now: int)
    ensures DateWindowKst(now).0 <= now <= DateWindowKst(now).1
    ensures DateWindowKst(now).1 - DateWindowKst(now).0 == 15 * SecondsPerDay - 1
  {
    var w := DateWindowKst(now);
    var a := now - 7 * SecondsPerDay;
    assert DayStart(a + 14 * SecondsPerDay) == DayStart(a) + 14 * SecondsPerDay by {
      assert (a + 14 * SecondsPerDay) % SecondsPerDay == a % SecondsPerDay;
    }
  }

  /** `row.dt_kst or parse_utils.to_kst(row.dt_utc)`; `to_kst(None)` is `None`. */
  function KstOf(row: CalendarRow, toKst: int -> int): Option<int> {
    if row.dtKst.Some? then row.dtKst
    else if row.dtUtc.Some? then Some(toKst(row.dtUtc.value))
    else None
  }

  /** The country guard: an empty or missing country passes. */
  predicate CountryOk(row: CalendarRow) {
    !(row.country.Some? && row.country.value != "" && row.country.value != Country)
  }

  /** The impact guard: a missing or zero impact passes. */
  predicate ImpactOk(row: CalendarRow) {
    !(row.impact.Some? && row.impact.value != 0 && row.impact.value !in ImpactAllowed)
  }

  /** A row survives all three `continue` guards of `filter_rows`. */
  predicate Passes(row: CalendarRow, start: int, end: int, toKst: int -> int) {
    CountryOk(row) && ImpactOk(row)
    && KstOf(row, toKst).Some? && start <= KstOf(row, toKst).value <= end
  }

  function Output(row: CalendarRow, kst: int): FilteredRow {
    FilteredRow(row.dtUtc, kst, row.title, row.category, row.impact, row.country, row.rawTimeText, row.sourceUrl)
  }

  /** The rows `filter_rows` returns for a window, in input order. */
  function Filtered(rows: seq<CalendarRow>, start: int, end: int, toKst: int -> int): (r: seq<FilteredRow>)
    ensures |r| <= |rows|
  {
    if |rows| == 0 then []
    else
      var init := Filtered(rows[..|rows| - 1], start, end, toKst);
      var last := rows[|rows| - 1];
      if Passes(last, start, end, toKst) then init + [Output(last, KstOf(last, toKst).value)] else init
  }

  /** `filter_rows(rows)` with "now" given. */
  method FilterRows(rows: seq<CalendarRow>, now: int, toKst: int -> int) returns (filtered: seq<FilteredRow>)
    ensures filtered == Filtered(rows, DateWindowKst(now).0, DateWindowKst(now).1, toKst)
  {
    var (startKst, endKst) := DateWindowKst(now);
    filtered := [];
    var i := 0;
    while i < |rows|
      invariant 0 <= i <= |rows|
      invariant filtered == Filtered(rows[..i], startKst, endKst, toKst)
    {
      var row := rows[i];
      assert rows[..i + 1][..i] == rows[..i];
      i := i + 1;
      if row.country.Some? && row.country.value != "" && row.country.value != Country {
        continue;
      }
      if row.impact.Some? && row.impact.value != 0 && row.impact.value !in ImpactAllowed {
        continue;
      }
      var dtKst := KstOf(row, toKst);
      if dtKst.None? || !(startKst <= dtKst.value <= endKst) {
        continue;
      }
      filtered := filtered + [Output(row, dtKst.value)];
    }
    assert rows[..i] == rows;
  }

  /**
   * A row comes out exactly when it passes the three guards, with every field
   * copied and its KST time filled in.
   */
  lemma {:induction false} FilteredMembers(rows: seq<CalendarRow>, start: int, end: int, toKst: int -> int, o: FilteredRow)
    ensures o in Filtered(rows, start, end, toKst) <==>
      exists i :: 0 <= i < |rows| && Passes(rows[i], start, end, toKst) && o == Output(rows[i], KstOf(rows[i], toKst).value)
  {
    if |rows| > 0 {
      var init := rows[..|rows| - 1];
      FilteredMembers(init, start, end, toKst, o);
      if exists i :: 0 <= i < |init| && Passes(init[i], start, end, toKst) && o == Output(init[i], KstOf(init[i], toKst).value) {
        var i :| 0 <= i < |init| && Passes(init[i], start, end, toKst) && o == Output(init[i], KstOf(init[i], toKst).value);
        assert rows[i] == init[i];
      }
      if exists i :: 0 <= i < |rows| && Passes(rows[i], start, end, toKst) && o == Output(rows[i], KstOf(rows[i], toKst).value) {
        var i :| 0 <= i < |rows| && Passes(rows[i], start, end, toKst) && o == Output(rows[i], KstOf(rows[i], toKst).value);
        if i < |init| {
          assert rows[i] == init[i];
        }
      }
    }
  }

  /** What a row would become if kept. */
  function Candidates(rows: seq<CalendarRow>, toKst: int -> int): (r: seq<FilteredRow>)
    ensures |r| == |rows|
    ensures forall i {:trigger r[i]} :: 0 <= i < |rows| ==> r[i] == Output(rows[i], KstOf(rows[i], toKst).UnwrapOr(0))
  {
    seq(|rows|, i requires 0 <= i < |rows| => Output(rows[i], KstOf(rows[i], toKst).UnwrapOr(0)))
  }

  /** The output keeps the input order: it is a subsequence of the converted input. */
  lemma {:induction false} FilteredInOrder(rows: seq<CalendarRow>, start: int, end: int, toKst: int -> int)
    ensures IsSubsequence(Filtered(rows, start, end, toKst), Candidates(rows, toKst))
  {
    if |rows| > 0 {
      var init := rows[..|rows| - 1];
      var last := rows[|rows| - 1];
      FilteredInOrder(init, start, end, toKst);
      var c := Candidates(rows, toKst);
      assert c == Candidates(init, toKst) + [c[|c| - 1]];
      if Passes(last, start, end, toKst) {
        SubsequenceExtend(Filtered(init, start, end, toKst), Candidates(init, toKst), c[|c| - 1]);
      } else {
        SubsequenceOfLonger(Filtered(init, start, end, toKst), Candidates(init, toKst), c[|c| - 1]);
      }
    }
  }

  /** The modes the driver accepts. */
  datatype Mode = Dom | Xhr | Indicators | Fomc | Speeches | Parse

  function ModeName(m: Mode): string {
    match m
    case Dom => "dom"
    case Xhr => "xhr"
    case Indicators => "indicators"
    case Fomc => "fomc"
    case Speeches => "speeches"
    case Parse => "parse"
  }

  /** The mode check of `main_async`: any other name is "Unsupported mode". */
  function ParseMode(name: string): Option<Mode> {
    match name
    case "dom" => Some(Dom)
    case "xhr" => Some(Xhr)
    case "indicators" => Some(Indicators)
    case "fomc" => Some(Fomc)
    case "speeches" => Some(Speeches)
    case "parse" => Some(Parse)
    case _ => None
  }

  /** Every mode is accepted under its own name, and only names of modes are accepted. */
  lemma ParseModeRoundTrip(m: Mode, name: string)
    ensures ParseMode(ModeName(m)) == Some(m)
    ensures ParseMode(name).Some? ==> ModeName(ParseMode(name).value) == name
  {
  }
}
