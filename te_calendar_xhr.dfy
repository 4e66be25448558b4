/**
 * Cookie-driven scraping of the economic calendar
 * (te_calendar_scraper/scraper/calendar_xhr.py): the filter cookies sent to
 * the server, the country and impact tokens, the row date found in the first
 * cell's classes, and the loop that turns table rows into calendar rows,
 * carrying the last date seen forward to rows without a date of their own.
 *
 * The HTML tree is given already located: a table row is its `data-*`
 * attributes and its cells, a cell its class attribute, its first `span`, its
 * text and the link of its `calendar-event` anchor.  The time parser, the
 * UTC-to-KST conversion, `datetime.combine(d, time.min)`, `str.title()` and
 * `urljoin` are the fields of `Env`.
 */
module TeCalendarXhr {
  import opened Wrappers
  import opened PyStr
  import opened PyDict
  import opened Calendar
  import CalendarMain
  import TeParseUtils

  /** Cookie names (`config.CALENDAR_*_COOKIE`). */
  const CountryCookie: string := "calendar-countries"
  const ImportanceCookie: string := "calendar-importance"
  const RangeCookie: string := "calendar-range"
  const CustomRangeCookie: string := "cal-custom-range"
  /** `config.CALENDAR_URL` */
  const CalendarUrl: string := "https://tradingeconomics.com/calendar"

  /** The spellings `_country_to_cookie` treats as the United States. */
  const UsAliases: seq<string> := ["united states", "us", "usa", "u.s.", "u.s.a."]

  /** `s in names` for a tuple of names. */
  predicate IsOneOf(s: string, names: seq<string>)
    // naming `s` in the measure keeps the verifier from expanding a literal
    // tuple of names unless `s` is a literal too
    decreases names, s
  {
    |names| > 0 && (s == names[0] || IsOneOf(s, names[1..]))
  }

  predicate IsUsAlias(s: string) {
    IsOneOf(s, UsAliases)
  }

  /** `_country_to_cookie(country)` */
  function CountryToCookie(country: string): string {
    var canonical := Lower(Strip(country));
    if IsUsAlias(canonical) then "usa" else ReplaceChar(canonical, ' ', '-')
  }

  /**
   * An alias of the United States gives "usa"; any cookie value is lower
   * case, has no space and no white space at either end.
   */
  lemma CountryToCookieShape(country: string)
    ensures IsUsAlias(Lower(Strip(country))) ==> CountryToCookie(country) == "usa"
    ensures CookieShaped(CountryToCookie(country))
  {
    var t := Strip(country);
    if IsUsAlias(Lower(t)) {
      UsaCookie();
    } else {
      ReplacedShape(t);
      assert CountryToCookie(country) == ReplaceChar(Lower(t), ' ', '-');
    }
  }

  /** Lower case, without a space, and without white space at either end. */
  predicate CookieShaped(c: string) {
    (forall i :: 0 <= i < |c| ==> c[i] != ' ' && LowerChar(c[i]) == c[i])
    && (|c| > 0 ==> !IsSpace(c[0]) && !IsSpace(c[|c| - 1]))
  }

  lemma UsaCookie()
    ensures CookieShaped("usa") && IsUsAlias("usa")
  {
    assert "usa"[0] == 'u' && "usa"[2] == 'a';
  }

  lemma ReplacedShape(t: string)
    requires |t| > 0 ==> !IsSpace(t[0]) && !IsSpace(t[|t| - 1])
    ensures CookieShaped(ReplaceChar(Lower(t), ' ', '-'))
  {
    var r := ReplaceChar(Lower(t), ' ', '-');
    forall i | 0 <= i < |r| ensures r[i] != ' ' && LowerChar(r[i]) == r[i] && (IsSpace(r[i]) ==> IsSpace(t[i])) {
      LowerCharIdempotent(t[i]);
    }
  }

  /** The cookie ignores letter case. */
  lemma CountryToCookieIgnoresCase(country: string)
    ensures CountryToCookie(Lower(country)) == CountryToCookie(country)
  {
    StripLower(country);
    StripLower(Lower(country));
    LowerIdempotent(Strip(country));
  }

  /** No alias contains a hyphen. */
  lemma AliasesHaveNoHyphen(a: string)
    requires IsUsAlias(a)
    ensures forall i :: 0 <= i < |a| ==> a[i] != '-'
  {
    IsOneOfIn(a, UsAliases);
    var n := UsAliases;
    assert a == n[0] || a == n[1] || a == n[2] || a == n[3] || a == n[4];
  }

  lemma {:induction false} IsOneOfIn(s: string, names: seq<string>)
    requires IsOneOf(s, names)
    ensures s in names
  {
    if s != names[0] {
      IsOneOfIn(s, names[1..]);
    }
  }

  /** A cookie value is its own cookie value. */
  lemma CountryToCookieIdempotent(country: string)
    ensures CountryToCookie(CountryToCookie(country)) == CountryToCookie(country)
  {
    var c := Lower(Strip(country));
    CountryToCookieShape(country);
    if IsUsAlias(c) {
      UsaCookieStable();
    } else {
      NonAliasCookieStable(c);
    }
  }

  lemma UsaCookieStable()
    ensures CountryToCookie("usa") == "usa"
  {
    UsaCookie();
    StripNoop("usa");
    CookieOfCanonical("usa");
  }

  lemma NonAliasCookieStable(c: string)
    requires !IsUsAlias(c) && CookieShaped(ReplaceChar(c, ' ', '-'))
    ensures CountryToCookie(ReplaceChar(c, ' ', '-')) == ReplaceChar(c, ' ', '-')
  {
    var r := ReplaceChar(c, ' ', '-');
    StripNoop(r);
    assert Lower(r) == r;
    NonAliasStable(c);
    CookieOfCanonical(r);
  }

  lemma CookieOfCanonical(r: string)
    requires Strip(r) == r && Lower(r) == r
    ensures CountryToCookie(r) == if IsUsAlias(r) then "usa" else ReplaceChar(r, ' ', '-')
  {
  }

  /** Replacing the spaces of a non-alias never makes an alias. */
  lemma NonAliasStable(canonical: string)
    requires !IsUsAlias(canonical)
    ensures !IsUsAlias(ReplaceChar(canonical, ' ', '-'))
    ensures ReplaceChar(ReplaceChar(canonical, ' ', '-'), ' ', '-') == ReplaceChar(canonical, ' ', '-')
  {
    var r := ReplaceChar(canonical, ' ', '-');
    assert (forall i :: 0 <= i < |r| ==> r[i] != '-') ==> r == canonical;
    if IsUsAlias(r) {
      AliasesHaveNoHyphen(r);
    }
  }

  predicate Increasing(s: seq<int>) {
    forall i, j :: 0 <= i < j < |s| ==> s[i] < s[j]
  }

  function InsertSorted(x: int, s: seq<int>): (r: seq<int>)
    requires Increasing(s)
    ensures Increasing(r)
    ensures forall y :: y in r <==> y == x || y in s
  {
    if |s| == 0 then [x]
    else if x < s[0] then [x] + s
    else if x == s[0] then s
    else
      var rest := InsertSorted(x, s[1..]);
      assert forall y :: y in rest ==> s[0] < y by {
        forall y | y in s[1..] ensures s[0] < y {
          var k :| 0 <= k < |s[1..]| && s[1..][k] == y;
          assert s[k + 1] == y;
        }
      }
      ConsIncreasing(s[0], rest);
      [s[0]] + rest
  }

  lemma ConsIncreasing(h: int, s: seq<int>)
    requires Increasing(s) && forall y :: y in s ==> h < y
    ensures Increasing([h] + s)
  {
    var r := [h] + s;
    forall i, j | 0 <= i < j < |r| ensures r[i] < r[j] {
      assert r[j] == s[j - 1];
      if i > 0 {
        assert r[i] == s[i - 1];
      } else {
        assert s[j - 1] in s;
      }
    }
  }

  /** `sorted(set(xs))` */
  function SortedSet(xs: seq<int>): (r: seq<int>)
    ensures Increasing(r)
    ensures forall y :: y in r <==> y in xs
  {
    if |xs| == 0 then []
    else
      assert xs == xs[..|xs| - 1] + [xs[|xs| - 1]];
      InsertSorted(xs[|xs| - 1], SortedSet(xs[..|xs| - 1]))
  }

  /** Two increasing sequences with the same elements are equal. */
  lemma {:induction false} IncreasingUnique(a: seq<int>, b: seq<int>)
    requires Increasing(a) && Increasing(b)
    requires forall y :: y in a <==> y in b
    ensures a == b
  {
    if |a| > 0 {
      assert a[0] in a;
    }
    if |b| > 0 {
      assert b[0] in b;
    }
    if |a| > 0 && |b| > 0 {
      assert a[0] in b && b[0] in a;
      assert a[0] == b[0];
      forall y ensures y in a[1..] <==> y in b[1..] {
        if y in a[1..] {
          assert y in a && y != a[0];
        }
        if y in b[1..] {
          assert y in b && y != b[0];
        }
      }
      IncreasingUnique(a[1..], b[1..]);
    }
  }

  function IntStrs(xs: seq<int>): (r: seq<string>)
    ensures |r| == |xs| && forall i :: 0 <= i < |xs| ==> r[i] == IntStr(xs[i])
  {
    seq(|xs|, i requires 0 <= i < |xs| => IntStr(xs[i]))
  }

  /** The importance cookie: the distinct impacts, ascending, joined by ",". */
  function ImportanceValue(impacts: seq<int>): string {
    Join(",", IntStrs(SortedSet(impacts)))
  }

  /** The importance cookie depends only on which impacts are asked for, not on their order or repetition. */
  lemma ImportanceValueOrderFree(a: seq<int>, b: seq<int>)
    requires forall y :: y in a <==> y in b
    ensures ImportanceValue(a) == ImportanceValue(b)
  {
    IncreasingUnique(SortedSet(a), SortedSet(b));
  }

  /** `f"{d:%Y-%m-%d}"` */
  function IsoDate(d: Date): (s: string)
    requires ValidDate(d)
    ensures |s| == 10
  {
    ZeroPad(d.year, 4) + "-" + ZeroPad(d.month, 2) + "-" + ZeroPad(d.day, 2)
  }

  /** `build_cookie_payload(country, start_date, end_date, impacts)` */
  function BuildCookiePayload(country: string, startDate: Date, endDate: Date, impacts: seq<int>): (r: seq<(string, string)>)
    requires ValidDate(startDate) && ValidDate(endDate)
    ensures Keys(r) == [CountryCookie, ImportanceCookie, RangeCookie, CustomRangeCookie]
  {
    [(CountryCookie, CountryToCookie(country)),
     (ImportanceCookie, ImportanceValue(impacts)),
     (RangeCookie, "0"),
     (CustomRangeCookie, IsoDate(startDate) + "|" + IsoDate(endDate))]
  }

  /** `\d{4}-\d{2}-\d{2}` matches at `i`. */
  predicate IsoShapeAt(s: string, i: nat) {
    i + 10 <= |s| && s[i + 4] == '-' && s[i + 7] == '-'
    && IsDigits(s[i..i + 4]) && IsDigits(s[i + 5..i + 7]) && IsDigits(s[i + 8..i + 10])
  }

  /** The date the match at `i` names, before validation. */
  function IsoAt(s: string, i: nat): Date
    requires IsoShapeAt(s, i)
  {
    Date(DigitsValue(s[i..i + 4]), DigitsValue(s[i + 5..i + 7]), DigitsValue(s[i + 8..i + 10]))
  }

  /** `_DATE_PATTERN.search(s[i:])`: the leftmost match at or after `i`. */
  function FirstIsoFrom(s: string, i: nat): (r: Option<nat>)
    ensures r.Some? ==> i <= r.value && IsoShapeAt(s, r.value)
    ensures r.Some? ==> forall j :: i <= j < r.value ==> !IsoShapeAt(s, j)
    ensures r.None? ==> forall j :: i <= j ==> !IsoShapeAt(s, j)
    decreases |s| - i
  {
    if i + 10 > |s| then None
    else if IsoShapeAt(s, i) then Some(i)
    else FirstIsoFrom(s, i + 1)
  }

  /** A class attribute: bs4 gives a list of tokens, or occasionally a plain string. */
  datatype ClassAttr = ClassList(tokens: seq<string>) | ClassText(text: string)

  datatype Span = Span(classAttr: Option<ClassAttr>, text: string)
  /** A `td`: its classes, its first `span`, its text and the `href` of its `a.calendar-event`. */
  datatype Cell = Cell(classAttr: Option<ClassAttr>, span: Option<Span>, text: string, eventHref: Option<string>)
  /** A `tr`: `data-id`, its cells, `data-category`, `data-country`. */
  datatype Tr = Tr(dataId: Option<string>, cells: seq<Cell>, category: Option<string>, country: Option<string>)

  /** The class string `_extract_row_date` searches: tokens joined by spaces. */
  function ClassString(attr: Option<ClassAttr>): string {
    match attr
    case None => ""
    case Some(ClassList(tokens)) => Join(" ", tokens)
    case Some(ClassText(text)) => text
  }

  /**
   * `_extract_row_date(tr)`: the leftmost `YYYY-MM-DD` in the first cell's
   * classes, if it names a real date; a later match is never tried.
   */
  function ExtractRowDate(tr: Tr): (r: Option<Date>)
    ensures r.Some? ==> ValidDate(r.value)
    ensures |tr.cells| == 0 ==> r.None?
  {
    if |tr.cells| == 0 then None
    else
      var s := ClassString(tr.cells[0].classAttr);
      var m := FirstIsoFrom(s, 0);
      if m.None? then None
      else
        var d := IsoAt(s, m.value);
        if ValidDate(d) then Some(d) else None
  }

  /** The date of `IsoDate(d)` laid out at `i` is read back as `d`. */
  lemma IsoDateAt(s: string, i: nat, d: Date)
    requires ValidDate(d)
    requires i + 10 <= |s| && s[i..i + 10] == IsoDate(d)
    ensures IsoShapeAt(s, i) && IsoAt(s, i) == d
  {
    var u := IsoDate(d);
    IsoDateParts(d);
    SliceWithin(s, i, u, 0, 4);
    SliceWithin(s, i, u, 5, 7);
    SliceWithin(s, i, u, 8, 10);
    assert s[i + 4] == u[4] && s[i + 7] == u[7];
  }

  /** Where the year, month and day sit in `IsoDate(d)`. */
  lemma IsoDateParts(d: Date)
    requires ValidDate(d)
    ensures var u := IsoDate(d);
      u[..4] == ZeroPad(d.year, 4) && u[5..7] == ZeroPad(d.month, 2) && u[8..10] == ZeroPad(d.day, 2)
      && u[4] == '-' && u[7] == '-'
  {
    var y, m, dd := ZeroPad(d.year, 4), ZeroPad(d.month, 2), ZeroPad(d.day, 2);
    var u := IsoDate(d);
    assert |y| == 4 && |m| == 2 && |dd| == 2;
    assert u == y + "-" + m + "-" + dd;
    assert u[..4] == y;
    assert u[5..7] == m;
    assert u[8..10] == dd;
  }

  /** A slice of a slice is a slice. */
  lemma SliceWithin(s: string, i: nat, u: string, lo: nat, hi: nat)
    requires i + |u| <= |s| && s[i..i + |u|] == u && lo <= hi <= |u|
    ensures s[i + lo..i + hi] == u[lo..hi]
  {
    assert forall k :: lo <= k < hi ==> s[i + k] == u[k];
  }

  /**
   * The custom-range cookie is `start|end` with both dates in the
   * `YYYY-MM-DD` form the row-date search reads back.
   */
  lemma CustomRangeRoundTrip(startDate: Date, endDate: Date)
    requires ValidDate(startDate) && ValidDate(endDate)
    ensures var v := IsoDate(startDate) + "|" + IsoDate(endDate);
      |v| == 21 && v[10] == '|' && IsoShapeAt(v, 0) && IsoAt(v, 0) == startDate
      && IsoShapeAt(v, 11) && IsoAt(v, 11) == endDate
  {
    var a := IsoDate(startDate);
    var b := IsoDate(endDate);
    var v := a + "|" + b;
    assert v[0..10] == a;
    assert v[11..21] == b;
    IsoDateAt(v, 0, startDate);
    IsoDateAt(v, 11, endDate);
  }

  /**
   * A date written among classes that hold no digit before it is the row's
   * date.
   */
  lemma RowDateRoundTrip(tr: Tr, pre: string, d: Date, post: string)
    requires ValidDate(d)
    requires forall i :: 0 <= i < |pre| ==> !IsDigit(pre[i])
    requires |tr.cells| > 0 && tr.cells[0].classAttr == Some(ClassText(pre + IsoDate(d) + post))
    ensures ExtractRowDate(tr) == Some(d)
  {
    var s := pre + IsoDate(d) + post;
    assert s[|pre|..|pre| + 10] == IsoDate(d);
    IsoDateAt(s, |pre|, d);
    forall j | 0 <= j < |pre| ensures !IsoShapeAt(s, j) {
      assert s[j..j + 4][0] == pre[j];
    }
    assert FirstIsoFrom(s, 0) == Some(|pre|);
  }

  /** The class tokens `_extract_impact` looks at; a missing attribute gives none. */
  function SpanTokens(span: Span): seq<string> {
    match span.classAttr
    case None => []
    case Some(ClassList(tokens)) => tokens
    case Some(ClassText(text)) => SplitWs(text)
  }

  /** One token: `calendar-date-...` or `importance-...` whose last hyphen part is all digits. */
  function TokenImpact(token: string): Option<nat> {
    if StartsWith(token, "calendar-date-") && IsDigits(LastPart(token, '-')) then Some(DigitsValue(LastPart(token, '-')))
    else if StartsWith(token, "importance-") && IsDigits(LastPart(token, '-')) then Some(DigitsValue(LastPart(token, '-')))
    else None
  }

  function FirstTokenImpact(tokens: seq<string>): (r: Option<nat>)
    ensures r.None? <==> forall i :: 0 <= i < |tokens| ==> TokenImpact(tokens[i]).None?
    ensures r.Some? ==> exists i :: 0 <= i < |tokens| && r == TokenImpact(tokens[i]) &&
                                    forall j :: 0 <= j < i ==> TokenImpact(tokens[j]).None?
  {
    if |tokens| == 0 then None
    else if TokenImpact(tokens[0]).Some? then TokenImpact(tokens[0])
    else
      var r := FirstTokenImpact(tokens[1..]);
      TeParseUtils.FirstImpactSkipped(tokens, TokenImpact, r);
      r
  }

  /** `_extract_impact(time_span)`: `None` without a span or a matching token. */
  function ExtractImpact(span: Option<Span>): Option<nat> {
    if span.None? then None else FirstTokenImpact(SpanTokens(span.value))
  }

  /**
   * Unlike the calendar scraper's `extract_impact`, which reads everything
   * after the first hyphen, this one reads the last hyphen part: the token
   * `importance-A-B` gives `B` here and nothing there.
   */
  lemma ImpactReadsLastPart(a: string, b: string)
    requires IsDigits(a) && IsDigits(b)
    ensures TokenImpact("importance-" + a + "-" + b) == Some(DigitsValue(b))
    ensures TeParseUtils.TokenImpact("importance-" + a + "-" + b).None?
  {
    ImportanceLastPart(a, b);
    ImportanceAfterFirst(a, b);
  }

  lemma ImportanceLastPart(a: string, b: string)
    requires IsDigits(a) && IsDigits(b)
    ensures TokenImpact("importance-" + a + "-" + b) == Some(DigitsValue(b))
  {
    var head := "importance-" + a;
    assert head[..11] == "importance-" && head[0] == 'i';
    ImportanceHeadToken(head, b);
  }

  /** A token made of an "importance-" head, a dash and digits gives those digits as the level. */
  lemma ImportanceHeadToken(head: string, b: string)
    requires |head| >= 11 && head[..11] == "importance-" && head[0] == 'i'
    requires IsDigits(b)
    ensures TokenImpact(head + "-" + b) == Some(DigitsValue(b))
  {
    var t := head + "-" + b;
    DigitsLastPart(head, b);
    StartsWithExtend("importance-", head, "-" + b);
    assert t == head + ("-" + b);
    NotCalendarDate(t);
    ImportanceToken(t);
  }

  /** A token that does not begin with 'c' is not a "calendar-date-" token. */
  lemma NotCalendarDate(t: string)
    requires |t| > 0 && t[0] == 'i'
    ensures !StartsWith(t, "calendar-date-")
  {
    assert "calendar-date-"[0] == 'c';
  }

  /** An "importance-" token ending in digits gives those digits as the level. */
  lemma ImportanceToken(t: string)
    requires StartsWith(t, "importance-") && !StartsWith(t, "calendar-date-") && IsDigits(LastPart(t, '-'))
    ensures TokenImpact(t) == Some(DigitsValue(LastPart(t, '-')))
  {
  }

  /** Digits after the last dash are the last part. */
  lemma DigitsLastPart(p: string, b: string)
    requires IsDigits(b)
    ensures LastPart(p + "-" + b, '-') == b
  {
    forall i | 0 <= i < |b| ensures b[i] != '-' {
      assert IsDigit(b[i]);
    }
    LastPartAfter(p, '-', b);
  }

  /** A prefix of a string is a prefix of any longer string that begins with it. */
  lemma StartsWithExtend(p: string, s: string, q: string)
    requires |p| <= |s| && s[..|p|] == p
    ensures StartsWith(s + q, p)
  {
    assert (s + q)[..|p|] == s[..|p|];
  }

  lemma ImportanceAfterFirst(a: string, b: string)
    requires IsDigits(a) && IsDigits(b)
    ensures TeParseUtils.TokenImpact("importance-" + a + "-" + b).None?
  {
    var t := "importance-" + a + "-" + b;
    assert !StartsWith(t, "calendar-date-") by {
      assert t[0] == 'i';
    }
    var f := AfterFirst(t, '-');
    assert t[10] == '-';
    assert |f| == |t| - 11 by {
      forall i | 0 <= i < 10 ensures t[i] != '-' {
        assert t[i] == "importance"[i];
      }
    }
    assert f[|a|] == '-';
  }

  /** The library calls `_parse_calendar_html` makes. */
  datatype Env = Env(
    parse: (string, int) -> Option<int>,
    toKst: int -> int,
    midnight: Date -> int,
    titleCase: string -> string,
    urljoin: (string, string) -> string)

  /** `tr.get("data-id")` is present and non-empty. */
  predicate HasId(tr: Tr) {
    tr.dataId.Some? && tr.dataId.value != ""
  }

  /** `_safe_get_cell(tr, 2)` */
  function TitleCell(tr: Tr): Option<Cell> {
    if 2 < |tr.cells| then Some(tr.cells[2]) else None
  }

  /** `clean_text(attr.title() if attr else None)` */
  function CleanAttr(attr: Option<string>, env: Env): Option<string> {
    if attr.Some? && attr.value != "" then TeParseUtils.CleanText(Some(env.titleCase(attr.value))) else None
  }

  /** The `CalendarRow` built for a kept row whose event date is `eventDate`. */
  function MakeRow(tr: Tr, eventDate: Option<Date>, env: Env): CalendarMain.CalendarRow
    requires |tr.cells| > 0
  {
    var timeSpan := tr.cells[0].span;
    var rawTime := TeParseUtils.CleanText(if timeSpan.Some? then Some(timeSpan.value.text) else None);
    var titleCell := TitleCell(tr);
    var title := TeParseUtils.CleanText(if titleCell.Some? then Some(titleCell.value.text) else None).UnwrapOr("");
    var href := if titleCell.Some? then titleCell.value.eventHref else None;
    var sourceUrl := if href.Some? && href.value != "" then Some(env.urljoin(CalendarUrl, href.value)) else None;
    var impact := ExtractImpact(timeSpan);
    var context := if eventDate.Some? then Some(env.midnight(eventDate.value)) else None;
    var dtUtc := TeParseUtils.ParseTimeToUtc(rawTime, context, env.parse);
    var dtKst := if dtUtc.Some? then Some(env.toKst(dtUtc.value)) else None;
    CalendarMain.CalendarRow(dtUtc, dtKst, title, CleanAttr(tr.category, env),
                             if impact.Some? then Some(impact.value as int) else None,
                             CleanAttr(tr.country, env), rawTime, sourceUrl)
  }

  /** The date a row sets for itself: its own date when it has a `data-id`. */
  function OwnDate(tr: Tr): Option<Date> {
    if HasId(tr) then ExtractRowDate(tr) else None
  }

  function OwnDates(trs: seq<Tr>): (r: seq<Option<Date>>)
    ensures |r| == |trs| && forall i :: 0 <= i < |trs| ==> r[i] == OwnDate(trs[i])
  {
    seq(|trs|, i requires 0 <= i < |trs| => OwnDate(trs[i]))
  }

  /** The last present value. */
  function LastSome<T>(xs: seq<Option<T>>): (r: Option<T>)
    ensures r.None? <==> forall i :: 0 <= i < |xs| ==> xs[i].None?
    ensures r.Some? ==> exists i :: 0 <= i < |xs| && xs[i] == r && forall j :: i < j < |xs| ==> xs[j].None?
  {
    if |xs| == 0 then None
    else if xs[|xs| - 1].Some? then xs[|xs| - 1]
    else
      var r := LastSome(xs[..|xs| - 1]);
      LastSomeSkips(xs, r);
      r
  }

  /** A trailing absent value leaves the last present one where it was. */
  lemma LastSomeSkips<T>(xs: seq<Option<T>>, r: Option<T>)
    requires |xs| > 0 && xs[|xs| - 1].None?
    requires var init := xs[..|xs| - 1];
      (r.None? <==> forall i :: 0 <= i < |init| ==> init[i].None?)
      && (r.Some? ==> exists i :: 0 <= i < |init| && init[i] == r && forall j :: i < j < |init| ==> init[j].None?)
    ensures r.None? <==> forall i :: 0 <= i < |xs| ==> xs[i].None?
    ensures r.Some? ==> exists i :: 0 <= i < |xs| && xs[i] == r && forall j :: i < j < |xs| ==> xs[j].None?
  {
    var init := xs[..|xs| - 1];
    if r.None? {
      forall i | 0 <= i < |xs| ensures xs[i].None? {
        if i < |init| {
          assert init[i] == xs[i];
        }
      }
    } else {
      var i :| 0 <= i < |init| && init[i] == r && forall j :: i < j < |init| ==> init[j].None?;
      assert xs[i] == init[i];
      forall j | i < j < |xs| ensures xs[j].None? {
        if j < |init| {
          assert init[j] == xs[j];
        }
      }
    }
  }

  /**
   * `last_event_date` after the rows of `trs`: the own date of the last row
   * that has one, or `None` when there is none.
   */
  function LastDate(trs: seq<Tr>): (r: Option<Date>)
    ensures r.None? <==> forall i :: 0 <= i < |trs| ==> OwnDate(trs[i]).None?
    ensures r.Some? ==> exists i :: 0 <= i < |trs| && OwnDate(trs[i]) == r &&
                                    forall j :: i < j < |trs| ==> OwnDate(trs[j]).None?
  {
    var ds := OwnDates(trs);
    var r := LastSome(ds);
    assert r.Some? ==> exists i :: 0 <= i < |trs| && OwnDate(trs[i]) == r &&
                                   forall j :: i < j < |trs| ==> OwnDate(trs[j]).None? by {
      if r.Some? {
        var i :| 0 <= i < |ds| && ds[i] == r && forall j :: i < j < |ds| ==> ds[j].None?;
        assert OwnDate(trs[i]) == r;
      }
    }
    r
  }

  /** One more row: its own date if it has one, else the date carried so far. */
  lemma LastDateStep(trs: seq<Tr>, i: int)
    requires 0 <= i < |trs|
    ensures LastDate(trs[..i + 1]) == if OwnDate(trs[i]).Some? then OwnDate(trs[i]) else LastDate(trs[..i])
  {
    assert OwnDates(trs[..i + 1]) == OwnDates(trs[..i]) + [OwnDate(trs[i])];
    assert OwnDates(trs[..i + 1])[..i] == OwnDates(trs[..i]);
  }

  /** A row is kept when it has a `data-id` and a first cell. */
  predicate Kept(tr: Tr) {
    HasId(tr) && |tr.cells| > 0
  }

  /** The rows `_parse_calendar_html` returns for the located `tr`s. */
  function Parsed(trs: seq<Tr>, env: Env): (r: seq<CalendarMain.CalendarRow>)
    ensures |r| <= |trs|
  {
    if |trs| == 0 then []
    else
      var init := Parsed(trs[..|trs| - 1], env);
      var t := trs[|trs| - 1];
      if Kept(t) then init + [MakeRow(t, LastDate(trs), env)] else init
  }

  /** `_parse_calendar_html(html)` over the located rows. */
  method ParseCalendarHtml(trs: seq<Tr>, env: Env) returns (rows: seq<CalendarMain.CalendarRow>)
    ensures rows == Parsed(trs, env)
  {
    rows := [];
    var lastEventDate: Option<Date> := None;
    var i := 0;
    while i < |trs|
      invariant 0 <= i <= |trs|
      invariant lastEventDate == LastDate(trs[..i])
      invariant rows == Parsed(trs[..i], env)
    {
      var tr := trs[i];
      assert trs[..i + 1][..i] == trs[..i];
      LastDateStep(trs, i);
      i := i + 1;
      if tr.dataId.None? || tr.dataId.value == "" {
        continue;
      }
      var eventDate := ExtractRowDate(tr);
      if eventDate.None? {
        eventDate := lastEventDate;
      } else {
        lastEventDate := eventDate;
      }
      if |tr.cells| == 0 {
        continue;
      }
      rows := rows + [MakeRow(tr, eventDate, env)];
    }
    assert trs[..i] == trs;
  }

  /** The positions of the kept rows, in order. */
  function KeptIndices(trs: seq<Tr>): (r: seq<nat>)
    ensures forall k :: 0 <= k < |r| ==> r[k] < |trs| && Kept(trs[r[k]])
    ensures forall k, l :: 0 <= k < l < |r| ==> r[k] < r[l]
    ensures forall i :: 0 <= i < |trs| && Kept(trs[i]) ==> i in r
  {
    if |trs| == 0 then []
    else
      var init := KeptIndices(trs[..|trs| - 1]);
      if Kept(trs[|trs| - 1]) then init + [|trs| - 1] else init
  }

  /** The row `_parse_calendar_html` builds for the kept `tr` at position `i`. */
  function RowAt(trs: seq<Tr>, i: nat, env: Env): CalendarMain.CalendarRow
    requires i < |trs| && Kept(trs[i])
  {
    MakeRow(trs[i], LastDate(trs[..i + 1]), env)
  }

  /** Rows after position `i` do not change the row built at `i`. */
  lemma RowAtPrefix(trs: seq<Tr>, n: nat, i: nat, env: Env)
    requires i < n <= |trs| && Kept(trs[i])
    ensures RowAt(trs[..n], i, env) == RowAt(trs, i, env)
  {
    assert trs[..n][..i + 1] == trs[..i + 1];
  }

  /** One row comes out per kept `tr`. */
  lemma {:induction false} ParsedLength(trs: seq<Tr>, env: Env)
    ensures |Parsed(trs, env)| == |KeptIndices(trs)|
  {
    if |trs| > 0 {
      ParsedLength(trs[..|trs| - 1], env);
    }
  }

  /**
   * The rows come out in the order of their `tr`s, and the row of the `i`-th
   * `tr` is built with the date carried up to and including it.
   */
  lemma ParsedRows(trs: seq<Tr>, env: Env)
    ensures |Parsed(trs, env)| == |KeptIndices(trs)|
    ensures forall k :: 0 <= k < |KeptIndices(trs)| ==> Parsed(trs, env)[k] == RowAt(trs, KeptIndices(trs)[k], env)
  {
    ParsedLength(trs, env);
    forall k | 0 <= k < |KeptIndices(trs)|
      ensures Parsed(trs, env)[k] == RowAt(trs, KeptIndices(trs)[k], env)
    {
      ParsedRowAt(trs, env, k);
    }
  }

  /** The `k`-th row comes from the `k`-th kept `tr`. */
  lemma {:induction false} ParsedRowAt(trs: seq<Tr>, env: Env, k: nat)
    requires k < |KeptIndices(trs)|
    ensures k < |Parsed(trs, env)| && Parsed(trs, env)[k] == RowAt(trs, KeptIndices(trs)[k], env)
  {
    var init := trs[..|trs| - 1];
    if k < |KeptIndices(init)| {
      ParsedRowAt(init, env, k);
      ParsedRowEarlier(trs, env, k);
    } else {
      ParsedRowLast(trs, env, k);
    }
  }

  /** A row of an earlier `tr` is the row the shorter list gave it. */
  lemma ParsedRowEarlier(trs: seq<Tr>, env: Env, k: nat)
    requires |trs| > 0 && k < |KeptIndices(trs[..|trs| - 1])|
    requires var init := trs[..|trs| - 1];
      k < |Parsed(init, env)| && Parsed(init, env)[k] == RowAt(init, KeptIndices(init)[k], env)
    ensures k < |KeptIndices(trs)| && k < |Parsed(trs, env)|
    ensures Parsed(trs, env)[k] == RowAt(trs, KeptIndices(trs)[k], env)
  {
    var n := |trs| - 1;
    var init := trs[..n];
    ParsedLength(trs, env);
    ParsedLength(init, env);
    assert KeptIndices(trs)[k] == KeptIndices(init)[k];
    assert Parsed(trs, env)[k] == Parsed(init, env)[k];
    RowAtPrefix(trs, n, KeptIndices(init)[k], env);
  }

  /** The row past the shorter list's rows is the last `tr`'s. */
  lemma ParsedRowLast(trs: seq<Tr>, env: Env, k: nat)
    requires k < |KeptIndices(trs)| && k >= |KeptIndices(trs[..|trs| - 1])|
    ensures k < |Parsed(trs, env)| && Parsed(trs, env)[k] == RowAt(trs, KeptIndices(trs)[k], env)
  {
    var n := |trs| - 1;
    KeptLast(trs);
    ParsedLength(trs[..n], env);
    ParsedLast(trs, env);
    assert k == |KeptIndices(trs[..n])|;
    assert KeptIndices(trs)[k] == n;
  }

  /** A list with more kept `tr`s than its prefix keeps its last `tr`, at the end. */
  lemma KeptLast(trs: seq<Tr>)
    requires |trs| > 0 && |KeptIndices(trs)| > |KeptIndices(trs[..|trs| - 1])|
    ensures Kept(trs[|trs| - 1]) && KeptIndices(trs) == KeptIndices(trs[..|trs| - 1]) + [|trs| - 1]
  {
  }

  /** A kept last `tr` adds its own row after the prefix's rows. */
  lemma ParsedLast(trs: seq<Tr>, env: Env)
    requires |trs| > 0 && Kept(trs[|trs| - 1])
    ensures Parsed(trs, env) == Parsed(trs[..|trs| - 1], env) + [RowAt(trs, |trs| - 1, env)]
  {
    assert trs[..|trs| - 1 + 1] == trs;
  }
}
