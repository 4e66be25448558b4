/**
 * Text helpers of the older calendar scraper (scraper/parse_utils.py): date
 * tokens among class names, the early exits of its time parser, link
 * resolution and country-name formatting.  `clean_text` is the same as the
 * calendar scraper's and is reused from `TeParseUtils`.
 *
 * `strptime` with "%Y-%m-%d" and the dateutil parser are the parameters
 * `strptime` and `parse`; they return `None` where the library raises.
 * `config.BASE_URL` comes from a configuration module that is not part of
 * this model, so it is the parameter `baseUrl`.
 */
module ScraperParseUtils {
  import opened Wrappers
  import opened PyStr
  import opened Calendar
  import TeParseUtils

  /** A token shaped like `YYYY-MM-DD`: ten characters with hyphens at 4 and 7. */
  predicate DateShaped(token: string) {
    |token| == 10 && token[4] == '-' && token[7] == '-'
  }

  /** Every class name stripped, in order. */
  function StrippedAll(classes: seq<string>): (r: seq<string>)
    ensures |r| == |classes|
    ensures forall i :: 0 <= i < |classes| ==> r[i] == Strip(classes[i])
  {
    seq(|classes|, i requires 0 <= i < |classes| => Strip(classes[i]))
  }

  /** The first date-shaped token. */
  function FirstDateShaped(tokens: seq<string>): (r: Option<string>)
    ensures r.None? <==> forall i :: 0 <= i < |tokens| ==> !DateShaped(tokens[i])
    ensures r.Some? ==> exists i :: 0 <= i < |tokens| && r.value == tokens[i] &&
                                    forall j :: 0 <= j < i ==> !DateShaped(tokens[j])
    ensures r.Some? ==> DateShaped(r.value)
  {
    if |tokens| == 0 then None
    else if DateShaped(tokens[0]) then Some(tokens[0])
    else
      var r := FirstDateShaped(tokens[1..]);
      assert forall i :: 1 <= i < |tokens| ==> tokens[i] == tokens[1..][i - 1];
      assert r.Some? ==> exists i :: 0 <= i < |tokens| && r.value == tokens[i] &&
                                     forall j :: 0 <= j < i ==> !DateShaped(tokens[j]) by {
        if r.Some? {
          var i :| 0 <= i < |tokens[1..]| && r.value == tokens[1..][i] &&
                   forall j :: 0 <= j < i ==> !DateShaped(tokens[1..][j]);
          assert r.value == tokens[i + 1];
        }
      }
      r
  }

  /**
   * `extract_date_from_classes(classes)`: the first class name that, stripped,
   * is date-shaped; `None` stands for no classes at all.
   */
  function ExtractDateFromClasses(classes: Option<seq<string>>): (r: Option<string>)
    ensures r.None? <==> forall i :: 0 <= i < |classes.UnwrapOr([])| ==> !DateShaped(Strip(classes.value[i]))
    ensures r.Some? ==> DateShaped(r.value)
    ensures r.Some? ==> exists i :: 0 <= i < |classes.value| && r.value == Strip(classes.value[i]) &&
                                    forall j :: 0 <= j < i ==> !DateShaped(Strip(classes.value[j]))
  {
    FirstDateShaped(StrippedAll(classes.UnwrapOr([])))
  }

  /** Substrings that make `parse_time_to_utc` give up. */
  const Sentinels: seq<string> := ["all day", "tentative", "tba", "na", "n/a"]

  predicate HasSentinel(lowered: string) {
    exists i :: 0 <= i < |Sentinels| && Contains(lowered, Sentinels[i])
  }

  /**
   * `parse_time_to_utc(raw_text, date_str)`: `None` for a missing date, a blank
   * text, a text containing a sentinel or a date `strptime` rejects.
   */
  function ParseTimeToUtc(rawText: Option<string>, dateStr: Option<string>,
                          strptime: string -> Option<Date>, parse: (string, Date) -> Option<int>): (r: Option<int>)
    ensures dateStr.None? || dateStr == Some("") ==> r.None?
    ensures rawText.None? || AllSpace(rawText.value) ==> r.None?
    ensures rawText.Some? && HasSentinel(Lower(Strip(rawText.value))) ==> r.None?
    ensures dateStr.Some? && strptime(dateStr.value).None? ==> r.None?
    ensures r.Some? ==> r == parse(Strip(rawText.value), strptime(dateStr.value).value)
  {
    if dateStr.None? || dateStr.value == "" then None
    else if rawText.None? || rawText.value == "" || Strip(rawText.value) == "" then
      StripEmptyIffAllSpace(if rawText.None? then "" else rawText.value);
      None
    else
      var stripped := Strip(rawText.value);
      StripEmptyIffAllSpace(rawText.value);
      if HasSentinel(Lower(stripped)) then None
      else
        var base := strptime(dateStr.value);
        if base.None? then None else parse(stripped, base.value)
  }

  /**
   * The two scrapers disagree on sentinels: "TBA" stops this one but goes on
   * to the parser in the calendar scraper, which compares whole texts against
   * a set without "tba".
   */
  lemma TbaOnlyHere(tba: string)
    requires |tba| == 3 && tba[0] == 'T' && tba[1] == 'B' && tba[2] == 'A'
    ensures HasSentinel(Lower(Strip(tba)))
    ensures TeParseUtils.CleanText(Some(tba)) == Some(tba) && Lower(tba) !in TeParseUtils.Sentinels
  {
    StripNoop(tba);
    var low := Lower(tba);
    assert low == "tba";
    assert HasSentinel(low) by {
      assert OccursAt(low, Sentinels[2], 0);
    }
    assert low !in TeParseUtils.Sentinels by {
      assert low != "n/a" && low != "--" && |low| == 3;
    }
    TeParseUtils.CleanTextOfWord(tba);
  }

  /** ... and "--" is refused by the calendar scraper but reaches this one's parser. */
  lemma DashesOnlyThere(dashes: string)
    requires |dashes| == 2 && dashes[0] == '-' && dashes[1] == '-'
    ensures !HasSentinel(Lower(Strip(dashes)))
    ensures TeParseUtils.CleanText(Some(dashes)) == Some(dashes) && Lower(dashes) in TeParseUtils.Sentinels
  {
    StripNoop(dashes);
    var low := Lower(dashes);
    assert low == "--" == dashes;
    forall i | 0 <= i < |Sentinels| ensures !Contains(low, Sentinels[i]) {
      if |Sentinels[i]| <= 2 {
        assert Sentinels[i][0] != '-';
        assert !OccursAt(low, Sentinels[i], 0);
      }
    }
    TeParseUtils.CleanTextOfWord(dashes);
  }

  /**
   * `resolve_url(path)`: `None` for a missing or empty path; an `http://` or
   * `https://` link stripped and otherwise untouched; anything else joined to
   * the base with exactly one slash added when it lacks a leading one.
   */
  function ResolveUrl(path: Option<string>, baseUrl: string): (r: Option<string>)
    ensures r.None? <==> path.None? || path.value == ""
    ensures r.Some? && (StartsWith(Strip(path.value), "http://") || StartsWith(Strip(path.value), "https://")) ==>
      r.value == Strip(path.value)
    ensures r.Some? && !(StartsWith(Strip(path.value), "http://") || StartsWith(Strip(path.value), "https://")) ==>
      StartsWith(r.value, baseUrl + "/") && EndsWith(r.value, Strip(path.value))
      && |r.value| == |baseUrl| + |Strip(path.value)| + (if StartsWith(Strip(path.value), "/") then 0 else 1)
  {
    if path.None? || path.value == "" then None
    else
      var p := Strip(path.value);
      if StartsWith(p, "http://") || StartsWith(p, "https://") then Some(p)
      else
        var q := if StartsWith(p, "/") then p else "/" + p;
        var r := baseUrl + q;
        assert r[..|baseUrl| + 1] == baseUrl + "/";
        assert r[|r| - |p|..] == p;
        Some(r)
  }

  /** With an absolute base, resolving a resolved link changes nothing. */
  lemma ResolveUrlIdempotent(path: Option<string>, baseUrl: string)
    requires StartsWith(baseUrl, "http://") || StartsWith(baseUrl, "https://")
    ensures ResolveUrl(path, baseUrl).Some? ==> ResolveUrl(ResolveUrl(path, baseUrl), baseUrl) == ResolveUrl(path, baseUrl)
  {
    var r := ResolveUrl(path, baseUrl);
    if r.Some? {
      var p := Strip(path.value);
      StripNoop(p);
      if !(StartsWith(p, "http://") || StartsWith(p, "https://")) {
        var q := if StartsWith(p, "/") then p else "/" + p;
        assert r.value == baseUrl + q;
        AbsoluteKept(baseUrl, q, p);
      }
    }
  }

  /** The base joined to a stripped path is absolute and has nothing to strip. */
  lemma AbsoluteKept(baseUrl: string, q: string, p: string)
    requires StartsWith(baseUrl, "http://") || StartsWith(baseUrl, "https://")
    requires |p| > 0 ==> !IsSpace(p[|p| - 1])
    requires q == p || q == "/" + p
    requires |q| > 0
    ensures ResolveUrl(Some(baseUrl + q), baseUrl) == Some(baseUrl + q)
  {
    var u := baseUrl + q;
    assert !IsSpace(u[0]) by {
      assert u[0] == baseUrl[0] == 'h';
    }
    assert !IsSpace(u[|u| - 1]) by {
      assert u[|u| - 1] == q[|q| - 1];
      if |p| > 0 {
        assert q[|q| - 1] == p[|p| - 1];
      }
    }
    StripNoop(u);
    AbsolutePrefix(baseUrl, q);
  }

  /** A link made by extending an absolute base is itself absolute. */
  lemma AbsolutePrefix(baseUrl: string, q: string)
    requires StartsWith(baseUrl, "http://") || StartsWith(baseUrl, "https://")
    ensures StartsWith(baseUrl + q, "http://") || StartsWith(baseUrl + q, "https://")
  {
    var u := baseUrl + q;
    if StartsWith(baseUrl, "http://") {
      assert u[..7] == baseUrl[..7];
    } else {
      assert u[..8] == baseUrl[..8];
    }
  }

  function Capitalized(ws: seq<string>): (r: seq<string>)
    ensures |r| == |ws|
    ensures forall i :: 0 <= i < |ws| ==> r[i] == Capitalize(ws[i])
  {
    seq(|ws|, i requires 0 <= i < |ws| => Capitalize(ws[i]))
  }

  lemma CapitalizeWord(w: string)
    requires IsWord(w)
    ensures IsWord(Capitalize(w))
    ensures Capitalize(Capitalize(w)) == Capitalize(w)
  {
    var c := Capitalize(w);
    assert c == [UpperChar(w[0])] + Lower(w[1..]);
    assert Lower(c[1..]) == c[1..];
    forall i | 0 <= i < |c| ensures !IsSpace(c[i]) {
      if i > 0 {
        assert c[i] == LowerChar(w[i]);
      }
    }
  }

  /**
   * `format_country(value)`: each whitespace-separated word capitalised,
   * joined by single spaces; `None` for a missing or empty value.
   */
  function FormatCountry(value: Option<string>): (r: Option<string>)
    ensures r.None? <==> value.None? || value.value == ""
    ensures r.Some? ==> SingleSpaced(r.value)
    ensures r.Some? ==> SplitWs(r.value) == Capitalized(SplitWs(value.value))
  {
    if value.None? || value.value == "" then None
    else
      var parts := Capitalized(SplitWs(value.value));
      forall i | 0 <= i < |parts| ensures IsWord(parts[i]) {
        CapitalizeWord(SplitWs(value.value)[i]);
      }
      JoinWordsShape(parts);
      SplitWsJoin(parts);
      Some(Join(" ", parts))
  }

  /** Formatting a formatted name changes nothing, and a blank but non-empty value gives "" rather than `None`. */
  lemma FormatCountryIdempotent(value: Option<string>)
    ensures FormatCountry(value).Some? && FormatCountry(value).value != "" ==>
      FormatCountry(FormatCountry(value)) == FormatCountry(value)
    ensures value.Some? && value.value != "" && AllSpace(value.value) ==> FormatCountry(value) == Some("")
  {
    var r := FormatCountry(value);
    if r.Some? && r.value != "" {
      var ws := SplitWs(value.value);
      var parts := Capitalized(ws);
      forall i | 0 <= i < |ws| ensures Capitalize(parts[i]) == parts[i] {
        CapitalizeWord(ws[i]);
      }
      assert Capitalized(parts) == parts;
    }
    if value.Some? && value.value != "" && AllSpace(value.value) {
      SplitWsEmptyIffAllSpace(value.value);
    }
  }
}
