/**
 * The source tools of validation_agent/source_tools.py that keep their records
 * in a list: the TradingEconomics calendar and indicator tools, the FOMC
 * press-conference tool, the news tool and the custom-tool template.
 *
 * Each tool is a class holding `data` (the loaded records, in load order) and
 * `loaded`.  `load_sources` reads files; here it is given the rows each file
 * yields, in the order the tool reads the files.  `search` and
 * `validate_claim` are methods with the loops of the source, each proved equal
 * to a function of the tool's state, and the lemmas below state what those
 * functions promise.
 */
module SourceTools {
  import opened Wrappers
  import opened PyStr
  import opened SeqUtil
  import opened ValidationTypes

  /** The records of `rs` that `keep(r, p)` accepts, in order. */
  function Filter<P>(rs: seq<Record>, keep: (Record, P) -> bool, p: P): seq<Record> {
    if |rs| == 0 then []
    else Filter(rs[..|rs| - 1], keep, p) + (if keep(rs[|rs| - 1], p) then [rs[|rs| - 1]] else [])
  }

  /** One more record: the filter of the longer prefix adds it when it is accepted. */
  lemma FilterStep<P>(rs: seq<Record>, i: int, keep: (Record, P) -> bool, p: P)
    requires 0 <= i < |rs|
    ensures Filter(rs[..i + 1], keep, p) == Filter(rs[..i], keep, p) + (if keep(rs[i], p) then [rs[i]] else [])
  {
    assert rs[..i + 1][..i] == rs[..i];
  }

  /** A filter keeps each accepted record once, in input order, and nothing else. */
  lemma {:induction false} FilterSpec<P>(rs: seq<Record>, keep: (Record, P) -> bool, p: P)
    ensures IsSubsequence(Filter(rs, keep, p), rs)
    ensures forall r :: r in Filter(rs, keep, p) <==> r in rs && keep(r, p)
  {
    if |rs| > 0 {
      var init := rs[..|rs| - 1];
      var last := rs[|rs| - 1];
      FilterSpec(init, keep, p);
      assert rs == init + [last];
      assert forall r :: r in rs <==> r in init || r == last;
      assert Filter(rs, keep, p) == Filter(init, keep, p) + (if keep(last, p) then [last] else []);
      if keep(last, p) {
        SubsequenceExtend(Filter(init, keep, p), init, last);
      } else {
        assert Filter(rs, keep, p) == Filter(init, keep, p);
        SubsequenceOfLonger(Filter(init, keep, p), init, last);
      }
    }
  }

  /** The first record a filter returns is the first accepted record of the input. */
  lemma {:induction false} FilterFirst<P>(rs: seq<Record>, keep: (Record, P) -> bool, p: P, i: int)
    requires 0 <= i < |rs| && keep(rs[i], p)
    requires forall j :: 0 <= j < i ==> !keep(rs[j], p)
    ensures |Filter(rs, keep, p)| > 0 && Filter(rs, keep, p)[0] == rs[i]
  {
    var init := rs[..|rs| - 1];
    if i == |rs| - 1 {
      FilterNone(init, keep, p);
    } else {
      FilterFirst(init, keep, p, i);
    }
  }

  /** A filter that accepts none of the records returns nothing. */
  lemma {:induction false} FilterNone<P>(rs: seq<Record>, keep: (Record, P) -> bool, p: P)
    requires forall j :: 0 <= j < |rs| ==> !keep(rs[j], p)
    ensures Filter(rs, keep, p) == []
  {
    if |rs| > 0 {
      FilterNone(rs[..|rs| - 1], keep, p);
    }
  }

  /** `dict.get(key)` formatted by an f-string: a missing key prints as `None`. */
  function FormatGet(r: Record, key: string): string {
    if key in r then r[key] else "None"
  }

  /** `s[:n]` */
  function Prefix(s: string, n: nat): (r: string)
    ensures |r| <= n && |r| <= |s| && r == s[..|r|]
  {
    if |s| <= n then s else s[..n]
  }

  /** The records `load_sources` keeps from the given files, each row projected with its file's name. */
  function LoadedRows(files: seq<(string, seq<Record>)>, project: (Record, string) -> Record): (rs: seq<Record>)
  {
    if |files| == 0 then []
    else
      var (name, rows) := files[|files| - 1];
      LoadedRows(files[..|files| - 1], project)
        + seq(|rows|, i requires 0 <= i < |rows| => project(rows[i], name))
  }

  /** The record stored for one row: `row` with the name of its file under `_source_file`. */
  function Stamp(row: Record, fileName: string): Record {
    row["_source_file" := fileName]
  }

  // ---------------------------------------------------------------------------
  // TECalendarSourceTool
  // ---------------------------------------------------------------------------

  const CalendarType := "calendar_events"

  /** The record `_load_csv` stores for one calendar CSV row. */
  function CalendarRecord(row: Record, fileName: string): Record {
    map["datetime_utc" := Field(row, "datetime_utc"), "datetime_kst" := Field(row, "datetime_kst"),
        "title" := Field(row, "title"), "category" := Field(row, "category"),
        "impact" := Field(row, "impact"), "country" := Field(row, "country"),
        "raw_time_text" := Field(row, "raw_time_text"), "source_url" := Field(row, "source_url"),
        "_source_file" := fileName]
  }

  /** The test of the `search` loop: title, then category, case-insensitively; then the date strings as given. */
  predicate CalendarHit(event: Record, query: string) {
    Contains(Lower(Field(event, "title")), Lower(query))
    || Contains(Lower(Field(event, "category")), Lower(query))
    || Contains(Field(event, "datetime_utc"), query)
    || Contains(Field(event, "datetime_kst"), query)
  }

  function CalendarSearch(loaded: bool, data: seq<Record>, query: string): (rs: seq<Record>)
    ensures !loaded ==> rs == []
  {
    if loaded then Filter(data, CalendarHit, query) else []
  }

  /** A reference `"Event Name, YYYY-MM-DD[, ...]"`: its first two comma-separated parts, stripped. */
  function CalendarReference(reference: string): (parts: (string, string)) {
    var ps := Split(reference, ",");
    (Strip(ps[0]), if |ps| > 1 then Strip(ps[1]) else "")
  }

  /** An event matches a reference when its title contains the name and, if a date is given, a date string contains it. */
  predicate CalendarClaimHit(event: Record, reference: (string, string)) {
    var (name, date) := reference;
    Contains(Lower(Field(event, "title")), Lower(name))
    && (date == "" || Contains(Field(event, "datetime_utc"), date) || Contains(Field(event, "datetime_kst"), date))
  }

  function CalendarValidate(loaded: bool, data: seq<Record>, claim: string, reference: string): SourceMatch {
    if !loaded then
      NoData(claim, CalendarType, reference, Error, 0, "Calendar data not loaded")
    else
      var matches := Filter(data, CalendarClaimHit, CalendarReference(reference));
      if |matches| == 0 then
        NoData(claim, CalendarType, reference, NotFound, 0, "No matching event found for: " + reference)
      else
        var best := matches[0];
        WithData(claim, CalendarType, reference, best, Valid, if |matches| == 1 then 90 else 70,
                 "Matched event: " + FormatGet(best, "title") + " on " + FormatGet(best, "datetime_kst"))
  }

  class TECalendarSourceTool {
    var data: seq<Record>
    var loaded: bool

    constructor ()
      ensures data == [] && !loaded
    {
      data := [];
      loaded := false;
    }

    /** `load_sources`: the rows of the calendar CSV files, in the order they are read. */
    method Load(files: seq<(string, seq<Record>)>)
      modifies this
      ensures data == LoadedRows(files, CalendarRecord) && loaded
    {
      data := [];
      var i := 0;
      while i < |files|
        invariant 0 <= i <= |files|
        invariant data == LoadedRows(files[..i], CalendarRecord)
      {
        var (name, rows) := files[i];
        assert files[..i + 1][..i] == files[..i];
        data := data + seq(|rows|, k requires 0 <= k < |rows| => CalendarRecord(rows[k], name));
        i := i + 1;
      }
      assert files[..i] == files;
      loaded := true;
    }

    method Search(query: string) returns (results: seq<Record>)
      ensures results == CalendarSearch(loaded, data, query)
    {
      if !loaded {
        return [];
      }
      var queryLower := Lower(query);
      results := [];
      var i := 0;
      while i < |data|
        invariant 0 <= i <= |data|
        invariant results == Filter(data[..i], CalendarHit, query)
      {
        var event := data[i];
        FilterStep(data, i, CalendarHit, query);
        i := i + 1;
        if Contains(Lower(Field(event, "title")), queryLower) {
          results := results + [event];
          continue;
        }
        if Contains(Lower(Field(event, "category")), queryLower) {
          results := results + [event];
          continue;
        }
        if Contains(Field(event, "datetime_utc"), query) || Contains(Field(event, "datetime_kst"), query) {
          results := results + [event];
          continue;
        }
      }
      assert data[..i] == data;
    }

    method ValidateClaim(claim: string, reference: string) returns (m: SourceMatch)
      ensures m == CalendarValidate(loaded, data, claim, reference)
    {
      if !loaded {
        return NoData(claim, CalendarType, reference, Error, 0, "Calendar data not loaded");
      }
      var parts := Split(reference, ",");
      var eventName := Strip(parts[0]);
      var eventDate := if |parts| > 1 then Strip(parts[1]) else "";
      var matches := [];
      var i := 0;
      while i < |data|
        invariant 0 <= i <= |data|
        invariant matches == Filter(data[..i], CalendarClaimHit, (eventName, eventDate))
      {
        var event := data[i];
        FilterStep(data, i, CalendarClaimHit, (eventName, eventDate));
        i := i + 1;
        var titleMatch := Contains(Lower(Field(event, "title")), Lower(eventName));
        var dateMatch := Contains(Field(event, "datetime_utc"), eventDate) || Contains(Field(event, "datetime_kst"), eventDate);
        if titleMatch && (eventDate == "" || dateMatch) {
          matches := matches + [event];
        }
      }
      assert data[..i] == data;
      if |matches| == 0 {
        return NoData(claim, CalendarType, reference, NotFound, 0, "No matching event found for: " + reference);
      }
      var best := matches[0];
      m := WithData(claim, CalendarType, reference, best, Valid, if |matches| == 1 then 90 else 70,
                    "Matched event: " + FormatGet(best, "title") + " on " + FormatGet(best, "datetime_kst"));
    }
  }

  /** Calendar `search` returns each matching event once, in load order, and nothing else. */
  lemma CalendarSearchSpec(loaded: bool, data: seq<Record>, query: string)
    requires loaded
    ensures IsSubsequence(CalendarSearch(loaded, data, query), data)
    ensures forall e :: e in CalendarSearch(loaded, data, query) <==> e in data && CalendarHit(e, query)
  {
    FilterSpec(data, CalendarHit, query);
  }

  /**
   * Calendar `validate_claim` on loaded data: NOT_FOUND exactly when no event
   * matches; otherwise VALID with the first matching event, at 0.9 for a
   * single match and 0.7 for several.
   */
  lemma CalendarValidateSpec(data: seq<Record>, claim: string, reference: string)
    ensures var m := CalendarValidate(true, data, claim, reference);
      (m.status == NotFound <==> forall e :: e in data ==> !CalendarClaimHit(e, CalendarReference(reference)))
      && (m.status == NotFound || m.status == Valid)
      && (m.status == Valid ==>
            exists i :: 0 <= i < |data| && CalendarClaimHit(data[i], CalendarReference(reference))
              && (forall j :: 0 <= j < i ==> !CalendarClaimHit(data[j], CalendarReference(reference)))
              && m.sourceData == Some(data[i])
              && m.confidence == (if |Filter(data, CalendarClaimHit, CalendarReference(reference))| == 1 then 90 else 70))
  {
    var ref := CalendarReference(reference);
    FilterSpec(data, CalendarClaimHit, ref);
    var matches := Filter(data, CalendarClaimHit, ref);
    if |matches| > 0 {
      FirstHit(data, CalendarClaimHit, ref, matches[0]);
    }
  }

  /** Some record is accepted, so there is a first accepted one, and it heads the filter. */
  lemma FirstHit<P>(rs: seq<Record>, keep: (Record, P) -> bool, p: P, r: Record)
    requires r in rs && keep(r, p)
    ensures |Filter(rs, keep, p)| > 0
    ensures exists i :: (0 <= i < |rs| && keep(rs[i], p) && (forall j :: 0 <= j < i ==> !keep(rs[j], p))
                         && Filter(rs, keep, p)[0] == rs[i])
  {
    var k :| 0 <= k < |rs| && rs[k] == r;
    var i := k;
    while i > 0 && exists j :: 0 <= j < i && keep(rs[j], p)
      invariant 0 <= i <= k && keep(rs[i], p)
      decreases i
    {
      var j :| 0 <= j < i && keep(rs[j], p);
      i := j;
    }
    FilterFirst(rs, keep, p, i);
  }

  // ---------------------------------------------------------------------------
  // TEIndicatorsSourceTool
  // ---------------------------------------------------------------------------

  const IndicatorsType := "macro_data"

  /** The record `_load_csv` stores for one indicator CSV row. */
  function IndicatorRecord(row: Record, fileName: string): Record {
    map["indicator_bucket" := Field(row, "indicator_bucket"), "indicator_name" := Field(row, "indicator_name"),
        "latest_value" := Field(row, "latest_value"), "unit" := Field(row, "unit"),
        "day_change" := Field(row, "day_change"), "month_change" := Field(row, "month_change"),
        "year_change" := Field(row, "year_change"), "obs_date" := Field(row, "obs_date"),
        "source_url" := Field(row, "source_url"), "_source_file" := fileName]
  }

  /** The test of the `search` loop: name, then bucket, both case-insensitively. */
  predicate IndicatorHit(indicator: Record, query: string) {
    Contains(Lower(Field(indicator, "indicator_name")), Lower(query))
    || Contains(Lower(Field(indicator, "indicator_bucket")), Lower(query))
  }

  function IndicatorSearch(loaded: bool, data: seq<Record>, query: string): (rs: seq<Record>)
    ensures !loaded ==> rs == []
  {
    if loaded then Filter(data, IndicatorHit, query) else []
  }

  /** The index of the first `c` in `s`, or -1. */
  function IndexOf(s: string, c: char): (i: int)
    ensures -1 <= i < |s|
    ensures i >= 0 ==> s[i] == c
    ensures forall j :: 0 <= j < |s| && (i < 0 || j < i) ==> s[j] != c
  {
    if |s| == 0 then -1
    else if s[0] == c then 0
    else var k := IndexOf(s[1..], c); if k < 0 then -1 else k + 1
  }

  /** The number of leading characters of `s` that match the regex class `\s`. */
  function LeadingSpaces(s: string): (n: nat)
    ensures n <= |s|
    ensures forall i :: 0 <= i < n ==> IsSpace(s[i])
    ensures n < |s| ==> !IsSpace(s[n])
  {
    if |s| > 0 && IsSpace(s[0]) then 1 + LeadingSpaces(s[1..]) else 0
  }

  /** The longest prefix of `s` without `c`: what `[^c]+` takes greedily. */
  function RunUntil(s: string, c: char): (r: string)
    ensures |r| <= |s| && r == s[..|r|]
    ensures forall i :: 0 <= i < |r| ==> r[i] != c
    ensures |r| < |s| ==> s[|r|] == c
  {
    var k := IndexOf(s, c);
    if k < 0 then s else s[..k]
  }

  /**
   * `re.match(r"([^:]+):\s*([^,]+)(?:,\s*(.+))?", reference)`: groups 1 and 2,
   * or `None` when the pattern does not match.  Group 1 runs to the first
   * colon.  Group 2 is the comma-free run after the spaces; when that run is
   * empty the engine gives one space back to it.
   */
  function IndicatorReference(reference: string): (groups: Option<(string, string)>)
    ensures groups.Some? ==>
      var c := IndexOf(reference, ':');
      1 <= c && groups.value.0 == reference[..c] && ':' !in groups.value.0 && |groups.value.1| > 0
  {
    var c := IndexOf(reference, ':');
    if c < 1 then None
    else
      var rest := reference[c + 1..];
      var w := LeadingSpaces(rest);
      var run := RunUntil(rest[w..], ',');
      if |run| > 0 then Some((reference[..c], run))
      else if w > 0 then Some((reference[..c], rest[w - 1..w]))
      else None
  }

  /** The text after a reference's first colon, when a non-empty name precedes that colon. */
  predicate IndicatorSeparated(reference: string) {
    var c := IndexOf(reference, ':');
    1 <= c && c + 1 < |reference| && reference[c + 1] != ','
  }

  /** The pattern matches exactly when a non-empty name precedes the first colon and something other than a comma follows it. */
  lemma IndicatorReferenceMatches(reference: string)
    ensures IndicatorReference(reference).Some? <==> IndicatorSeparated(reference)
  {
    var c := IndexOf(reference, ':');
    if 1 <= c && c + 1 < |reference| {
      var rest := reference[c + 1..];
      assert rest[0] == reference[c + 1];
      var w := LeadingSpaces(rest);
      if w == 0 {
        assert rest[w..] == rest;
        var run := RunUntil(rest, ',');
        if rest[0] != ',' {
          assert |run| > 0;
        } else {
          assert |run| == 0;
        }
      } else {
        assert IsSpace(rest[0]);
        assert rest[0] != ',';
      }
    }
  }

  /** `re.sub(r"[^\d.]", "", s)`: the digits and dots of `s`, in order. */
  function NumericPart(s: string): (r: string)
    ensures forall i :: 0 <= i < |r| ==> IsDigit(r[i]) || r[i] == '.'
    ensures |r| <= |s|
  {
    if |s| == 0 then ""
    else (if IsDigit(s[0]) || s[0] == '.' then [s[0]] else "") + NumericPart(s[1..])
  }

  predicate IndicatorNameHit(indicator: Record, name: string) {
    Contains(Lower(Field(indicator, "indicator_name")), Lower(name))
  }

  function IndicatorValidate(loaded: bool, data: seq<Record>, claim: string, reference: string): SourceMatch {
    if !loaded then
      NoData(claim, IndicatorsType, reference, Error, 0, "Indicator data not loaded")
    else match IndicatorReference(reference)
      case None =>
        NoData(claim, IndicatorsType, reference, Error, 0, "Could not parse reference format: " + reference)
      case Some((group1, group2)) =>
        IndicatorJudge(data, claim, reference, Strip(group1), Strip(group2))
  }

  /** The verdict on a parsed reference: the first indicator whose name contains `name`, and its value against `claimed`. */
  function IndicatorJudge(data: seq<Record>, claim: string, reference: string, name: string, claimed: string): SourceMatch {
    var matches := Filter(data, IndicatorNameHit, name);
    if |matches| == 0 then
      NoData(claim, IndicatorsType, reference, NotFound, 0, "No matching indicator found for: " + name)
    else
      var best := matches[0];
      var value := Field(best, "latest_value");
      var unit := Field(best, "unit");
      if NumericPart(claimed) == NumericPart(value) then
        WithData(claim, IndicatorsType, reference, best, Valid, 95, "Value matches: " + value + unit)
      else
        SourceMatch(claim, IndicatorsType, reference, Some(best), Invalid, 80,
                    "Value mismatch: claimed " + claimed + ", source has " + value + unit,
                    Some(name + ": " + value + unit))
  }

  class TEIndicatorsSourceTool {
    var data: seq<Record>
    var loaded: bool

    constructor ()
      ensures data == [] && !loaded
    {
      data := [];
      loaded := false;
    }

    /** `load_sources`: the newest indicator CSV file, if there is one. */
    method Load(file: Option<(string, seq<Record>)>)
      modifies this
      ensures data == LoadedRows(if file.Some? then [file.value] else [], IndicatorRecord) && loaded
    {
      data := [];
      if file.Some? {
        var (name, rows) := file.value;
        data := seq(|rows|, k requires 0 <= k < |rows| => IndicatorRecord(rows[k], name));
      }
      loaded := true;
    }

    method Search(query: string) returns (results: seq<Record>)
      ensures results == IndicatorSearch(loaded, data, query)
    {
      if !loaded {
        return [];
      }
      var queryLower := Lower(query);
      results := [];
      var i := 0;
      while i < |data|
        invariant 0 <= i <= |data|
        invariant results == Filter(data[..i], IndicatorHit, query)
      {
        var indicator := data[i];
        FilterStep(data, i, IndicatorHit, query);
        i := i + 1;
        if Contains(Lower(Field(indicator, "indicator_name")), queryLower) {
          results := results + [indicator];
          continue;
        }
        if Contains(Lower(Field(indicator, "indicator_bucket")), queryLower) {
          results := results + [indicator];
          continue;
        }
      }
      assert data[..i] == data;
    }

    method ValidateClaim(claim: string, reference: string) returns (m: SourceMatch)
      ensures m == IndicatorValidate(loaded, data, claim, reference)
    {
      if !loaded {
        return NoData(claim, IndicatorsType, reference, Error, 0, "Indicator data not loaded");
      }
      var parsed := IndicatorReference(reference);
      if parsed.None? {
        return NoData(claim, IndicatorsType, reference, Error, 0, "Could not parse reference format: " + reference);
      }
      var indicatorName := Strip(parsed.value.0);
      var claimedValue := Strip(parsed.value.1);
      var matches := [];
      var i := 0;
      while i < |data|
        invariant 0 <= i <= |data|
        invariant matches == Filter(data[..i], IndicatorNameHit, indicatorName)
      {
        var indicator := data[i];
        FilterStep(data, i, IndicatorNameHit, indicatorName);
        i := i + 1;
        if Contains(Lower(Field(indicator, "indicator_name")), Lower(indicatorName)) {
          matches := matches + [indicator];
        }
      }
      assert data[..i] == data;
      if |matches| == 0 {
        return NoData(claim, IndicatorsType, reference, NotFound, 0, "No matching indicator found for: " + indicatorName);
      }
      var best := matches[0];
      var sourceValue := Field(best, "latest_value");
      var sourceUnit := Field(best, "unit");
      if NumericPart(claimedValue) == NumericPart(sourceValue) {
        m := WithData(claim, IndicatorsType, reference, best, Valid, 95, "Value matches: " + sourceValue + sourceUnit);
      } else {
        m := SourceMatch(claim, IndicatorsType, reference, Some(best), Invalid, 80,
                         "Value mismatch: claimed " + claimedValue + ", source has " + sourceValue + sourceUnit,
                         Some(indicatorName + ": " + sourceValue + sourceUnit));
      }
    }
  }

  /** The claimed value and the indicator's latest value agree on their digits and dots. */
  predicate ValueAgrees(claimed: string, indicator: Record) {
    NumericPart(claimed) == NumericPart(Field(indicator, "latest_value"))
  }

  /**
   * Indicator `validate_claim` on loaded data, once the reference has parsed
   * into `name` and `claimed` (both stripped): NOT_FOUND
   * when no indicator name contains the claimed name; otherwise VALID at 0.95
   * exactly when the first such indicator's value agrees with the claim, and
   * INVALID at 0.8 with the correction "name: value unit" when it does not.
   */
  lemma IndicatorValidateSpec(data: seq<Record>, claim: string, reference: string, name: string, claimed: string)
    ensures var matches := Filter(data, IndicatorNameHit, name);
      var m := IndicatorJudge(data, claim, reference, name, claimed);
      (m.status == NotFound <==> |matches| == 0)
      && (m.status == Valid <==> |matches| > 0 && ValueAgrees(claimed, matches[0]))
      && (m.status == Invalid <==> |matches| > 0 && !ValueAgrees(claimed, matches[0]))
      && (m.status == Valid ==> m.confidence == 95)
      && (m.status == Invalid ==>
            m.confidence == 80 && m.suggestedCorrection.Some? && StartsWith(m.suggestedCorrection.value, name + ": "))
  {
    var matches := Filter(data, IndicatorNameHit, name);
    var m := IndicatorJudge(data, claim, reference, name, claimed);
    if |matches| > 0 {
      var best := matches[0];
      var rest := Field(best, "latest_value") + Field(best, "unit");
      if m.status == Invalid {
        assert m.suggestedCorrection.value == (name + ": ") + rest;
      }
    }
  }

  /** A reference the pattern does not match is an ERROR, whatever the data. */
  lemma IndicatorUnparsed(loaded: bool, data: seq<Record>, claim: string, reference: string)
    requires !IndicatorSeparated(reference)
    ensures IndicatorValidate(loaded, data, claim, reference).status == Error
  {
    IndicatorReferenceMatches(reference);
  }

  // ---------------------------------------------------------------------------
  // FOMCSourceTool
  // ---------------------------------------------------------------------------

  const FomcType := "fomc_events"

  /** The record `load_sources` keeps for the PDF `stem.pdf` of `dir`, split into year, month and dates. */
  function FomcRecord(dir: string, stem: string, year: string, month: string, dates: string): Record {
    map["year" := year, "month" := month, "dates" := dates,
        "title" := "FOMC Press Conference - " + Capitalize(month) + " " + year,
        "filename" := stem + ".pdf", "path" := dir + "/" + stem + ".pdf",
        "_source_file" := stem + ".pdf"]
  }

  /** The record kept for one PDF, when its stem has at least three `_` parts. */
  function FomcDocument(dir: string, stem: string): (r: Option<Record>)
    ensures r.Some? <==> |Split(stem, "_")| >= 3
  {
    var parts := Split(stem, "_");
    if |parts| >= 3 then Some(FomcRecord(dir, stem, parts[0], parts[1], parts[2])) else None
  }

  /** The records kept for the PDFs of a directory, in the order they are listed. */
  function FomcDocuments(dir: string, stems: seq<string>): (rs: seq<Record>)
    ensures |rs| <= |stems|
  {
    if |stems| == 0 then []
    else
      var d := FomcDocument(dir, stems[|stems| - 1]);
      FomcDocuments(dir, stems[..|stems| - 1]) + (if d.Some? then [d.value] else [])
  }

  /** The test of the `search` loop: the title case-insensitively; then the year as given, or the month case-insensitively. */
  predicate FomcHit(doc: Record, query: string) {
    Contains(Lower(Field(doc, "title")), Lower(query))
    || Contains(Field(doc, "year"), query)
    || Contains(Lower(Field(doc, "month")), Lower(query))
  }

  function FomcSearch(loaded: bool, data: seq<Record>, query: string): (rs: seq<Record>)
    ensures !loaded ==> rs == []
  {
    if loaded then Filter(data, FomcHit, query) else []
  }

  function FomcValidate(loaded: bool, data: seq<Record>, claim: string, reference: string): SourceMatch {
    if !loaded then
      NoData(claim, FomcType, reference, Error, 0, "FOMC data not loaded")
    else
      var matches := FomcSearch(loaded, data, reference);
      if |matches| == 0 then
        NoData(claim, FomcType, reference, NotFound, 0, "No matching FOMC document found for: " + reference)
      else
        WithData(claim, FomcType, reference, matches[0], Partial, 60,
                 "FOMC document exists: " + FormatGet(matches[0], "filename")
                 + ". Content validation requires PDF parsing.")
  }

  class FOMCSourceTool {
    var data: seq<Record>
    var loaded: bool

    constructor ()
      ensures data == [] && !loaded
    {
      data := [];
      loaded := false;
    }

    /**
     * `load_sources(path)` for a path that is a directory (`isDir`) holding
     * PDFs with the given stems.  A path that is not a directory empties the
     * data and returns before `loaded` is set.
     */
    method Load(isDir: bool, dir: string, stems: seq<string>)
      modifies this
      ensures data == (if isDir then FomcDocuments(dir, stems) else [])
      ensures loaded == (isDir || old(loaded))
    {
      data := [];
      if !isDir {
        return;
      }
      var i := 0;
      while i < |stems|
        invariant 0 <= i <= |stems|
        invariant data == FomcDocuments(dir, stems[..i])
      {
        assert stems[..i + 1][..i] == stems[..i];
        var parts := Split(stems[i], "_");
        if |parts| >= 3 {
          data := data + [FomcDocument(dir, stems[i]).value];
        }
        i := i + 1;
      }
      assert stems[..i] == stems;
      loaded := true;
    }

    method Search(query: string) returns (results: seq<Record>)
      ensures results == FomcSearch(loaded, data, query)
    {
      if !loaded {
        return [];
      }
      var queryLower := Lower(query);
      results := [];
      var i := 0;
      while i < |data|
        invariant 0 <= i <= |data|
        invariant results == Filter(data[..i], FomcHit, query)
      {
        var doc := data[i];
        FilterStep(data, i, FomcHit, query);
        i := i + 1;
        if Contains(Lower(Field(doc, "title")), queryLower) {
          results := results + [doc];
          continue;
        }
        if Contains(Field(doc, "year"), query) || Contains(Lower(Field(doc, "month")), queryLower) {
          results := results + [doc];
          continue;
        }
      }
      assert data[..i] == data;
    }

    method ValidateClaim(claim: string, reference: string) returns (m: SourceMatch)
      ensures m == FomcValidate(loaded, data, claim, reference)
    {
      if !loaded {
        return NoData(claim, FomcType, reference, Error, 0, "FOMC data not loaded");
      }
      var matches := Search(reference);
      if |matches| == 0 {
        return NoData(claim, FomcType, reference, NotFound, 0, "No matching FOMC document found for: " + reference);
      }
      var best := matches[0];
      m := WithData(claim, FomcType, reference, best, Partial, 60,
                    "FOMC document exists: " + FormatGet(best, "filename") + ". Content validation requires PDF parsing.");
    }
  }

  /** FOMC `validate_claim` never says VALID: PARTIAL at 0.6 when `search` finds a document, NOT_FOUND when loaded and it finds none. */
  lemma FomcValidateNeverValid(loaded: bool, data: seq<Record>, claim: string, reference: string)
    ensures var m := FomcValidate(loaded, data, claim, reference);
      m.status != Valid
      && (m.status == Partial <==> |FomcSearch(loaded, data, reference)| > 0)
      && (m.status == Partial ==> m.confidence == 60 && m.sourceData == Some(FomcSearch(loaded, data, reference)[0]))
      && (m.status == NotFound <==> loaded && forall d :: d in data ==> !FomcHit(d, reference))
  {
    if loaded {
      FilterSpec(data, FomcHit, reference);
      var matches := FomcSearch(loaded, data, reference);
      if |matches| > 0 {
        assert matches[0] in matches;
      }
    }
  }

  /**
   * A file named `year_month_dates_rest.pdf`, with no `_` inside the three
   * fields, is kept with exactly those fields, so its title names the month,
   * capitalised, and the year.
   */
  lemma FomcDocumentFields(dir: string, year: string, month: string, dates: string, rest: string)
    requires !Contains(year, "_") && !Contains(month, "_") && !Contains(dates, "_")
    ensures var stem := year + "_" + month + "_" + dates + "_" + rest;
      FomcDocument(dir, stem) == Some(FomcRecord(dir, stem, year, month, dates))
  {
    SplitThreeFields(year, month, dates, rest);
  }

  /** The three leading `_`-free fields of a name split off in order. */
  lemma SplitThreeFields(year: string, month: string, dates: string, rest: string)
    requires !Contains(year, "_") && !Contains(month, "_") && !Contains(dates, "_")
    ensures var parts := Split(year + "_" + month + "_" + dates + "_" + rest, "_");
      |parts| >= 3 && parts[0] == year && parts[1] == month && parts[2] == dates
  {
    var tail := dates + "_" + rest;
    var mid := month + "_" + tail;
    SplitAtFirst(dates, rest);
    SplitAtFirst(month, tail);
    SplitAtFirst(year, mid);
    UnderscoreAssoc(year, month, dates, rest);
    var p3 := Split(tail, "_");
    var p2 := Split(mid, "_");
    var p1 := Split(year + "_" + mid, "_");
    assert p3[0] == dates;
    assert p2[0] == month && p2[1] == p3[0];
    assert p1[0] == year && p1[1] == p2[0] && p1[2] == p2[1];
  }

  /** The name regrouped around its first underscore. */
  lemma UnderscoreAssoc(year: string, month: string, dates: string, rest: string)
    ensures year + "_" + month + "_" + dates + "_" + rest == year + "_" + (month + "_" + (dates + "_" + rest))
  {
  }

  /** Splitting `a + "_" + b` on "_" when `a` has no "_": `a`, then the parts of `b`. */
  lemma SplitAtFirst(a: string, b: string)
    requires !Contains(a, "_")
    ensures Split(a + "_" + b, "_") == [a] + Split(b, "_")
  {
    var s := a + "_" + b;
    assert OccursAt(s, "_", |a|) by {
      assert s[|a|..|a| + 1] == "_";
    }
    forall j | 0 <= j < |a| ensures !OccursAt(s, "_", j) {
      assert s[j..j + 1] == a[j..j + 1];
      assert !OccursAt(a, "_", j);
    }
    assert Find(s, "_") == |a|;
    assert s[..|a|] == a && s[|a| + 1..] == b;
  }

  // ---------------------------------------------------------------------------
  // NewsSourceTool
  // ---------------------------------------------------------------------------

  const NewsType := "news_data"

  /** `article.get("headline", "") or article.get("title", "")` */
  function NewsHeadline(article: Record): string {
    Or(Field(article, "headline"), Field(article, "title"))
  }

  /** `article.get("provider", "") or article.get("source", "")` */
  function NewsProvider(article: Record): string {
    Or(Field(article, "provider"), Field(article, "source"))
  }

  /** The test of the `search` loop: headline, then provider, then summary, all case-insensitively. */
  predicate NewsHit(article: Record, query: string) {
    Contains(Lower(NewsHeadline(article)), Lower(query))
    || Contains(Lower(NewsProvider(article)), Lower(query))
    || Contains(Lower(Field(article, "summary")), Lower(query))
  }

  function NewsSearch(loaded: bool, data: seq<Record>, query: string): (rs: seq<Record>)
    ensures !loaded ==> rs == []
  {
    if loaded then Filter(data, NewsHit, query) else []
  }

  /** `s` holds a character other than a line break: one the regex `.` can take. */
  predicate HasLineChar(s: string) {
    exists i :: 0 <= i < |s| && s[i] != '\n'
  }

  /**
   * The optional group `(?:\s*-\s*(.+))?` after the closing quote, with
   * `strip()` applied to group 2.  The dash must follow the spaces; `.+` takes
   * the rest of the line, and when that is empty the engine gives back one
   * space, which strips to "".
   */
  function NewsProviderPart(rest: string): Option<string> {
    var w := LeadingSpaces(rest);
    if w < |rest| && rest[w] == '-' then
      var after := rest[w + 1..];
      var w2 := LeadingSpaces(after);
      var line := RunUntil(after[w2..], '\n');
      if |line| > 0 then Some(Strip(line))
      else if HasLineChar(after[..w2]) then Some("")
      else None
    else None
  }

  /**
   * The headline and provider of a news reference: `"Headline" - Provider`
   * when `re.match(r'"([^"]+)"(?:\s*-\s*(.+))?', reference)` matches, else the
   * whole reference stripped, with no provider.
   */
  function NewsReference(reference: string): (string, Option<string>) {
    if |reference| > 0 && reference[0] == '"' then
      var body := reference[1..];
      var q := IndexOf(body, '"');
      if q >= 1 then (Strip(body[..q]), NewsProviderPart(body[q + 1..]))
      else (Strip(reference), None)
    else (Strip(reference), None)
  }

  /** The headlines contain one another, either way round, and a given provider is part of the article's. */
  predicate NewsClaimHit(article: Record, reference: (string, Option<string>)) {
    (Contains(Lower(NewsHeadline(article)), Lower(reference.0)) || Contains(Lower(reference.0), Lower(NewsHeadline(article))))
    && (reference.1.None? || Contains(Lower(NewsProvider(article)), Lower(reference.1.value)))
  }

  /** `best_match.get('headline', best_match.get('title'))` */
  function NewsExplained(best: Record): string {
    if "headline" in best then best["headline"] else FormatGet(best, "title")
  }

  function NewsValidate(loaded: bool, data: seq<Record>, claim: string, reference: string): SourceMatch {
    if !loaded then
      NoData(claim, NewsType, reference, Error, 0, "News data not loaded")
    else
      NewsJudge(data, claim, reference, NewsReference(reference))
  }

  /** The verdict on a parsed reference: the first article that matches it. */
  function NewsJudge(data: seq<Record>, claim: string, reference: string, parsed: (string, Option<string>)): SourceMatch {
    var matches := Filter(data, NewsClaimHit, parsed);
    if |matches| == 0 then
      NoData(claim, NewsType, reference, NotFound, 0, "No matching news article found for: " + parsed.0)
    else
      WithData(claim, NewsType, reference, matches[0], Valid, 85, "Matched article: " + NewsExplained(matches[0]))
  }

  class NewsSourceTool {
    var data: seq<Record>
    var loaded: bool

    constructor ()
      ensures data == [] && !loaded
    {
      data := [];
      loaded := false;
    }

    /** `load_sources`: the items of each JSON file (a single object counts as one item), stamped with the file name. */
    method Load(files: seq<(string, seq<Record>)>)
      modifies this
      ensures data == LoadedRows(files, Stamp) && loaded
    {
      data := [];
      var i := 0;
      while i < |files|
        invariant 0 <= i <= |files|
        invariant data == LoadedRows(files[..i], Stamp)
      {
        var (name, items) := files[i];
        assert files[..i + 1][..i] == files[..i];
        var j := 0;
        var before := data;
        while j < |items|
          invariant 0 <= j <= |items|
          invariant data == before + seq(j, k requires 0 <= k < j => Stamp(items[k], name))
        {
          data := data + [Stamp(items[j], name)];
          j := j + 1;
        }
        i := i + 1;
      }
      assert files[..i] == files;
      loaded := true;
    }

    method Search(query: string) returns (results: seq<Record>)
      ensures results == NewsSearch(loaded, data, query)
    {
      if !loaded {
        return [];
      }
      var queryLower := Lower(query);
      results := [];
      var i := 0;
      while i < |data|
        invariant 0 <= i <= |data|
        invariant results == Filter(data[..i], NewsHit, query)
      {
        var article := data[i];
        FilterStep(data, i, NewsHit, query);
        i := i + 1;
        var headline := Or(Field(article, "headline"), Field(article, "title"));
        if Contains(Lower(headline), queryLower) {
          results := results + [article];
          continue;
        }
        var provider := Or(Field(article, "provider"), Field(article, "source"));
        if Contains(Lower(provider), queryLower) {
          results := results + [article];
          continue;
        }
        if Contains(Lower(Field(article, "summary")), queryLower) {
          results := results + [article];
          continue;
        }
      }
      assert data[..i] == data;
    }

    method ValidateClaim(claim: string, reference: string) returns (m: SourceMatch)
      ensures m == NewsValidate(loaded, data, claim, reference)
    {
      if !loaded {
        return NoData(claim, NewsType, reference, Error, 0, "News data not loaded");
      }
      var parsed := NewsReference(reference);
      var headline := parsed.0;
      var provider := parsed.1;
      var matches := [];
      var i := 0;
      while i < |data|
        invariant 0 <= i <= |data|
        invariant matches == Filter(data[..i], NewsClaimHit, parsed)
      {
        var article := data[i];
        FilterStep(data, i, NewsClaimHit, parsed);
        i := i + 1;
        var articleHeadline := Or(Field(article, "headline"), Field(article, "title"));
        var articleProvider := Or(Field(article, "provider"), Field(article, "source"));
        if Contains(Lower(articleHeadline), Lower(headline)) || Contains(Lower(headline), Lower(articleHeadline)) {
          if provider.None? || Contains(Lower(articleProvider), Lower(provider.value)) {
            matches := matches + [article];
          }
        }
      }
      assert data[..i] == data;
      if |matches| == 0 {
        return NoData(claim, NewsType, reference, NotFound, 0, "No matching news article found for: " + headline);
      }
      m := WithData(claim, NewsType, reference, matches[0], Valid, 85, "Matched article: " + NewsExplained(matches[0]));
    }
  }

  /** A quoted headline followed by ` - Provider` yields that headline and provider. */
  lemma NewsReferenceQuoted(headline: string, provider: string)
    requires '"' !in headline && |Strip(headline)| > 0 && Strip(headline) == headline
    requires |provider| > 0 && '\n' !in provider && !IsSpace(provider[0])
    ensures NewsReference("\"" + headline + "\" - " + provider) == (headline, Some(Strip(provider)))
  {
    var reference := "\"" + headline + "\" - " + provider;
    var body := reference[1..];
    assert body == headline + "\" - " + provider;
    assert body[|headline|] == '"';
    assert IndexOf(body, '"') == |headline| by {
      forall j | 0 <= j < |headline| ensures body[j] != '"' {
        assert body[j] == headline[j];
      }
    }
    assert |headline| >= 1;
    assert body[..|headline|] == headline;
    var rest := body[|headline| + 1..];
    assert rest == " - " + provider;
    assert LeadingSpaces(rest) == 1 by {
      assert IsSpace(rest[0]) && rest[1] == '-';
    }
    var after := rest[2..];
    assert after == " " + provider;
    assert LeadingSpaces(after) == 1 by {
      assert IsSpace(after[0]) && after[1] == provider[0];
    }
    assert after[1..] == provider;
    assert RunUntil(provider, '\n') == provider by {
      var k := IndexOf(provider, '\n');
      assert k < 0;
    }
  }

  /**
   * News `validate_claim` on loaded data is VALID at 0.85, with the first
   * matching article, exactly when some article's headline and the reference's
   * contain one another and any given provider is part of the article's; it is
   * NOT_FOUND otherwise.
   */
  lemma NewsValidateSpec(data: seq<Record>, claim: string, reference: string)
    ensures var m := NewsValidate(true, data, claim, reference);
      var parsed := NewsReference(reference);
      (m.status == Valid <==> exists a :: a in data && NewsClaimHit(a, parsed))
      && (m.status == Valid || m.status == NotFound)
      && (m.status == Valid ==>
            m.confidence == 85 && m.sourceData.Some? && m.sourceData.value in data
            && NewsClaimHit(m.sourceData.value, parsed))
  {
    var parsed := NewsReference(reference);
    FilterSpec(data, NewsClaimHit, parsed);
    var matches := Filter(data, NewsClaimHit, parsed);
    if |matches| > 0 {
      assert matches[0] in matches;
    }
  }

  // ---------------------------------------------------------------------------
  // CustomSourceTool
  // ---------------------------------------------------------------------------

  const CustomType := "custom_source"

  function CustomValidate(loaded: bool, claim: string, reference: string): (m: SourceMatch)
    ensures m.status == (if loaded then NotFound else Error)
  {
    if !loaded then NoData(claim, CustomType, reference, Error, 0, CustomType + " data not loaded")
    else NoData(claim, CustomType, reference, NotFound, 0, "Validation not implemented")
  }

  /** The template tool: `search` finds nothing, loaded or not. */
  class CustomSourceTool {
    var data: seq<Record>
    var loaded: bool

    constructor ()
      ensures data == [] && !loaded
    {
      data := [];
      loaded := false;
    }

    method Load()
      modifies this
      ensures data == [] && loaded
    {
      data := [];
      loaded := true;
    }

    method Search(query: string) returns (results: seq<Record>)
      ensures results == []
    {
      if !loaded {
        return [];
      }
      results := [];
    }

    method ValidateClaim(claim: string, reference: string) returns (m: SourceMatch)
      ensures m == CustomValidate(loaded, claim, reference)
    {
      if !loaded {
        return NoData(claim, CustomType, reference, Error, 0, CustomType + " data not loaded");
      }
      m := NoData(claim, CustomType, reference, NotFound, 0, "Validation not implemented");
    }
  }

  /**
   * The list-backed tools answer `search` with nothing and `validate_claim`
   * with ERROR until their sources are loaded.
   */
  lemma UnloadedListTools(data: seq<Record>, claim: string, reference: string)
    ensures CalendarValidate(false, data, claim, reference).status == Error
    ensures IndicatorValidate(false, data, claim, reference).status == Error
    ensures FomcValidate(false, data, claim, reference).status == Error
    ensures NewsValidate(false, data, claim, reference).status == Error
    ensures CustomValidate(false, claim, reference).status == Error
  {
  }
}
