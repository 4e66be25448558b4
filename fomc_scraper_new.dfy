/**
 * The FOMC materials scraper (te_calendar_scraper/scraper/fomc_scraper_new.py):
 * the minutes-URL preference, the two-form release-date parser, the choice of
 * the page to follow for a meeting without a press conference and the PDF
 * links it adds, and the "ten most recent release months" filter.
 */
module FomcScraperNew {
  import opened Wrappers
  import opened PyStr
  import opened Calendar
  import opened DatePatterns
  import opened DateSort
  import FomcScraper

  datatype MeetingMaterial = MeetingMaterial(
    year: int,
    month: string,
    dates: string,
    meetingType: string,
    pressConferenceUrl: Option<string>,
    statementUrl: Option<string>,
    minutesUrl: Option<string>,
    otherMaterialsUrls: seq<string>,
    statementHtmlUrl: Option<string>,
    pressConferencePdfUrl: Option<string>,
    minutesHtmlUrl: Option<string>,
    meetingPageUrl: Option<string>,
    releaseDate: Option<Date>)

  predicate Truthy(s: Option<string>) {
    s.Some? && s.value != ""
  }

  /** `get_final_minutes_html_url`: the press-conference page's minutes link, else an HTML calendar link. */
  function GetFinalMinutesHtmlUrl(m: MeetingMaterial): (r: Option<string>)
    ensures Truthy(m.minutesHtmlUrl) ==> r == m.minutesHtmlUrl
    ensures !Truthy(m.minutesHtmlUrl) ==>
      (r.Some? <==> Truthy(m.minutesUrl) && Contains(Lower(m.minutesUrl.value), ".html"))
    ensures r.Some? ==> r.value != "" && (r == m.minutesHtmlUrl || r == m.minutesUrl)
  {
    if Truthy(m.minutesHtmlUrl) then m.minutesHtmlUrl
    else if Truthy(m.minutesUrl) && Contains(Lower(m.minutesUrl.value), ".html") then m.minutesUrl
    else None
  }

  /** `parse_release_date`: the "Released ..." form first, then any "Month D, YYYY". */
  function ParseReleaseDate(text: string): (r: Option<Date>)
    ensures r.Some? ==> ValidDate(r.value)
    ensures r.None? <==> SearchValid(Released, text).None? && SearchValid(Generic, text).None?
  {
    var released := SearchValid(Released, text);
    if released.Some? then released else SearchValid(Generic, text)
  }

  /** Whatever date the older scraper reads from a page, this one reads too. */
  lemma ParseReleaseDateExtendsReleasedForm(text: string)
    ensures FomcScraper.ParseReleaseDate(text).Some? ==>
      ParseReleaseDate(text) == FomcScraper.ParseReleaseDate(text)
  {
  }

  /** A date printed without the "Released" word is still read when no release line is present. */
  lemma ParseReleaseDateReadsBareDate(d: Date, rest: string)
    requires ValidDate(d) && d.year >= 1000
    requires SearchValid(Released, DateText(d) + rest).None?
    ensures ParseReleaseDate(DateText(d) + rest) == Some(d)
  {
    GenericTextMatches(d, rest);
  }

  /** The page `enrich_meeting_from_fallback` follows: statement, else first other material, else minutes. */
  function FallbackUrl(m: MeetingMaterial): (r: Option<string>)
    ensures r.Some? ==> r.value != ""
    ensures Truthy(m.statementUrl) ==> r == m.statementUrl
    ensures !Truthy(m.statementUrl) && |m.otherMaterialsUrls| > 0 ==>
      r == (if m.otherMaterialsUrls[0] != "" then Some(m.otherMaterialsUrls[0]) else None)
    ensures !Truthy(m.statementUrl) && |m.otherMaterialsUrls| == 0 ==>
      r == (if Truthy(m.minutesUrl) then m.minutesUrl else None)
  {
    var chosen :=
      if Truthy(m.statementUrl) then m.statementUrl
      else if |m.otherMaterialsUrls| > 0 then Some(m.otherMaterialsUrls[0])
      else if Truthy(m.minutesUrl) then m.minutesUrl
      else None;
    if chosen.Some? && chosen.value != "" then chosen else None
  }

  /**
   * The PDF links of a fetched page: every `href` containing ".pdf" (in any case),
   * joined to the site root, each kept once, in page order.
   */
  method CollectPdfUrls(hrefs: seq<string>, join: string -> string) returns (pdfUrls: seq<string>)
    ensures NoDups(pdfUrls)
    ensures forall u :: u in pdfUrls <==> exists k :: 0 <= k < |hrefs| && IsPdfHref(hrefs[k]) && join(hrefs[k]) == u
  {
    pdfUrls := [];
    var i := 0;
    while i < |hrefs|
      invariant 0 <= i <= |hrefs|
      invariant NoDups(pdfUrls)
      invariant forall u :: u in pdfUrls <==> exists k :: 0 <= k < i && IsPdfHref(hrefs[k]) && join(hrefs[k]) == u
    {
      var href := hrefs[i];
      if IsPdfHref(href) {
        var fullUrl := join(href);
        if fullUrl !in pdfUrls {
          pdfUrls := pdfUrls + [fullUrl];
        }
      }
      i := i + 1;
    }
  }

  predicate IsPdfHref(href: string) {
    Contains(Lower(href), ".pdf")
  }

  predicate NoDups(s: seq<string>) {
    forall i, j :: 0 <= i < j < |s| ==> s[i] != s[j]
  }

  /** Append each URL not already present; the existing list is kept as its prefix. */
  method AddMissing(existing: seq<string>, urls: seq<string>) returns (merged: seq<string>)
    ensures |existing| <= |merged| && merged[..|existing|] == existing
    ensures forall u :: u in merged <==> u in existing || u in urls
    ensures NoDups(existing) && NoDups(urls) ==> NoDups(merged)
  {
    merged := existing;
    var i := 0;
    while i < |urls|
      invariant 0 <= i <= |urls|
      invariant |existing| <= |merged| && merged[..|existing|] == existing
      invariant forall u :: u in merged <==> u in existing || u in urls[..i]
      invariant NoDups(existing) && NoDups(urls) ==> NoDups(merged)
    {
      assert urls[..i + 1] == urls[..i] + [urls[i]];
      if urls[i] !in merged {
        merged := merged + [urls[i]];
      }
      i := i + 1;
    }
    assert urls[..i] == urls;
  }

  /** What fetching the followed page yields: its links, its text and its headings' texts. */
  datatype Page = Page(hrefs: seq<string>, text: string, headings: seq<string>)

  /** The first heading whose text yields a release date. */
  function FirstHeadingDate(headings: seq<string>): (r: Option<Date>)
    ensures r.Some? ==> exists k :: 0 <= k < |headings| && ParseReleaseDate(headings[k]) == r
    ensures r.None? <==> forall k :: 0 <= k < |headings| ==> ParseReleaseDate(headings[k]).None?
  {
    if |headings| == 0 then None
    else
      var d := ParseReleaseDate(headings[0]);
      if d.Some? then d
      else
        var r := FirstHeadingDate(headings[1..]);
        assert forall k :: 1 <= k < |headings| ==> headings[1..][k - 1] == headings[k];
        r
  }

  /**
   * `enrich_meeting_from_fallback`.  `fetch` stands for the HTTP request and the
   * HTML parse; `None` is a request error, which leaves the material as it was.
   */
  method EnrichMeetingFromFallback(m: MeetingMaterial, fetch: string -> Option<Page>, join: string -> string)
    returns (r: MeetingMaterial)
    ensures FallbackUrl(m).None? || fetch(FallbackUrl(m).value).None? ==> r == m
    ensures FallbackUrl(m).Some? && fetch(FallbackUrl(m).value).Some? ==>
      var page := fetch(FallbackUrl(m).value).value;
      && r.meetingPageUrl == FallbackUrl(m)
      && |m.otherMaterialsUrls| <= |r.otherMaterialsUrls|
      && r.otherMaterialsUrls[..|m.otherMaterialsUrls|] == m.otherMaterialsUrls
      && (forall u :: u in r.otherMaterialsUrls <==>
            u in m.otherMaterialsUrls
            || exists k :: 0 <= k < |page.hrefs| && IsPdfHref(page.hrefs[k]) && join(page.hrefs[k]) == u)
      && (NoDups(m.otherMaterialsUrls) ==> NoDups(r.otherMaterialsUrls))
      && r.releaseDate == (if ParseReleaseDate(page.text).Some? then ParseReleaseDate(page.text)
                           else FirstHeadingDate(page.headings))
      && r == m.(meetingPageUrl := r.meetingPageUrl, otherMaterialsUrls := r.otherMaterialsUrls,
                 releaseDate := r.releaseDate)
  {
    var urlToFollow := FallbackUrl(m);
    if urlToFollow.None? {
      return m;
    }
    var response := fetch(urlToFollow.value);
    if response.None? {
      return m;
    }
    var page := response.value;
    r := m.(meetingPageUrl := urlToFollow);
    var pdfUrls := CollectPdfUrls(page.hrefs, join);
    var merged := AddMissing(r.otherMaterialsUrls, pdfUrls);
    r := r.(otherMaterialsUrls := merged);
    r := r.(releaseDate := ParseReleaseDate(page.text));
    if r.releaseDate.None? {
      var k := 0;
      while k < |page.headings|
        invariant 0 <= k <= |page.headings|
        invariant r.releaseDate.None?
        invariant FirstHeadingDate(page.headings) == FirstHeadingDate(page.headings[k..])
      {
        assert page.headings[k..][1..] == page.headings[k + 1..];
        var d := ParseReleaseDate(page.headings[k]);
        if d.Some? {
          r := r.(releaseDate := d);
          break;
        }
        k := k + 1;
      }
    }
  }

  const MaxRecentMonths: nat := 10

  function ReleaseKey(m: MeetingMaterial): Date {
    m.releaseDate.UnwrapOr(Date(0, 0, 0))
  }

  function ReleaseMonth(m: MeetingMaterial): MonthKey {
    MonthOf(ReleaseKey(m))
  }

  /** `[m for m in meetings if m.release_date is not None]` */
  function Dated(ms: seq<MeetingMaterial>): (r: seq<MeetingMaterial>)
    ensures forall i :: 0 <= i < |r| ==> r[i].releaseDate.Some?
    ensures forall m :: m in r <==> m in ms && m.releaseDate.Some?
  {
    if |ms| == 0 then []
    else
      var init := ms[..|ms| - 1];
      var last := ms[|ms| - 1];
      assert ms == init + [last];
      Dated(init) + (if last.releaseDate.Some? then [last] else [])
  }

  /** The release months of the meetings in `ms`. */
  function MonthsOf(ms: seq<MeetingMaterial>): set<MonthKey> {
    set i | 0 <= i < |ms| :: ReleaseMonth(ms[i])
  }

  lemma MonthsOfSnoc(s: seq<MeetingMaterial>, i: int)
    requires 0 <= i < |s|
    ensures MonthsOf(s[..i + 1]) == MonthsOf(s[..i]) + {ReleaseMonth(s[i])}
  {
    var a := s[..i + 1];
    forall k | k in MonthsOf(a) ensures k in MonthsOf(s[..i]) + {ReleaseMonth(s[i])} {
      var q :| 0 <= q < i + 1 && ReleaseMonth(a[q]) == k;
      if q < i {
        assert a[q] == s[..i][q];
      }
    }
    forall k | k in MonthsOf(s[..i]) ensures k in MonthsOf(a) {
      var q :| 0 <= q < i && ReleaseMonth(s[..i][q]) == k;
      assert a[q] == s[..i][q];
    }
    assert a[i] == s[i];
  }

  /** The meetings of `ms` whose release month is in `months`, in order. */
  function InMonths(ms: seq<MeetingMaterial>, months: set<MonthKey>): (r: seq<MeetingMaterial>)
    ensures forall i :: 0 <= i < |r| ==> ReleaseMonth(r[i]) in months
    ensures forall m :: m in ms && ReleaseMonth(m) in months ==> m in r
  {
    if |ms| == 0 then []
    else
      var init := ms[..|ms| - 1];
      var last := ms[|ms| - 1];
      assert ms == init + [last];
      InMonths(init, months) + (if ReleaseMonth(last) in months then [last] else [])
  }

  lemma {:induction false} InMonthsCount(ms: seq<MeetingMaterial>, months: set<MonthKey>, x: MeetingMaterial)
    ensures multiset(InMonths(ms, months))[x] == if ReleaseMonth(x) in months then multiset(ms)[x] else 0
  {
    if |ms| > 0 {
      var init := ms[..|ms| - 1];
      assert ms == init + [ms[|ms| - 1]];
      InMonthsCount(init, months, x);
    }
  }

  /** Filtering two orderings of the same meetings keeps the same meetings. */
  lemma InMonthsPermutation(a: seq<MeetingMaterial>, b: seq<MeetingMaterial>, months: set<MonthKey>)
    requires multiset(a) == multiset(b)
    ensures multiset(InMonths(a, months)) == multiset(InMonths(b, months))
  {
    forall x ensures multiset(InMonths(a, months))[x] == multiset(InMonths(b, months))[x] {
      InMonthsCount(a, months, x);
      InMonthsCount(b, months, x);
    }
  }

  lemma {:induction false} InMonthsSorted(ms: seq<MeetingMaterial>, months: set<MonthKey>)
    requires SortedDesc(ms, ReleaseKey)
    ensures SortedDesc(InMonths(ms, months), ReleaseKey)
    ensures multiset(InMonths(ms, months)) <= multiset(ms)
  {
    InMonthsSorted2(ms, months);
    if |ms| > 0 {
      var init := ms[..|ms| - 1];
      var last := ms[|ms| - 1];
      assert ms == init + [last];
      InMonthsSorted(init, months);
      var r0 := InMonths(init, months);
      if ReleaseMonth(last) in months {
        forall x | x in r0 ensures AtOrBefore(ReleaseKey(last), ReleaseKey(x)) {
          assert x in multiset(init);
          LastIsOldest(ms, x);
        }
        SortedSnoc(r0, last);
      }
    }
  }

  /** The last meeting of a list sorted newest first is no newer than any before it. */
  lemma LastIsOldest(ms: seq<MeetingMaterial>, x: MeetingMaterial)
    requires SortedDesc(ms, ReleaseKey) && |ms| > 0 && x in ms[..|ms| - 1]
    ensures AtOrBefore(ReleaseKey(ms[|ms| - 1]), ReleaseKey(x))
  {
    var k :| 0 <= k < |ms| - 1 && ms[..|ms| - 1][k] == x;
    assert ms[k] == x;
  }

  /** Appending a meeting no newer than any listed keeps the list sorted newest first. */
  lemma SortedSnoc(r0: seq<MeetingMaterial>, last: MeetingMaterial)
    requires SortedDesc(r0, ReleaseKey)
    requires forall x :: x in r0 ==> AtOrBefore(ReleaseKey(last), ReleaseKey(x))
    ensures SortedDesc(r0 + [last], ReleaseKey)
  {
    var r := r0 + [last];
    forall i, j | 0 <= i < j < |r| ensures AtOrBefore(ReleaseKey(r[j]), ReleaseKey(r[i])) {
      assert r[i] == r0[i];
      if j < |r0| {
        assert r[j] == r0[j];
      }
    }
  }

  /**
   * `filter_recent_10_months`.  Without any dated meeting the input comes back
   * unchanged.  Otherwise the result holds only dated meetings, newest first;
   * it spans at most ten release months; every dated meeting of a month it
   * spans is in it; and a dated meeting left out is older than every month kept,
   * which then number exactly ten.
   */
  method FilterRecent10Months(meetings: seq<MeetingMaterial>) returns (r: seq<MeetingMaterial>)
    ensures Dated(meetings) == [] ==> r == meetings
    ensures Dated(meetings) != [] ==>
      && (forall i :: 0 <= i < |r| ==> r[i].releaseDate.Some?)
      && SortedDesc(r, ReleaseKey)
      && |MonthsOf(r)| <= MaxRecentMonths
      && multiset(r) == multiset(InMonths(Dated(meetings), MonthsOf(r)))
      && (forall m :: m in meetings && m.releaseDate.Some? ==>
            ReleaseMonth(m) in MonthsOf(r)
            || (|MonthsOf(r)| == MaxRecentMonths
                && forall k :: k in MonthsOf(r) ==> MonthBefore(ReleaseMonth(m), k)))
  {
    var withDate := Dated(meetings);
    if |withDate| == 0 {
      return meetings;
    }
    var sorted := SortDesc(withDate, ReleaseKey);
    var seen, i, stop := RecentMonths(sorted);
    r := KeepMonths(sorted, seen);
    SortDescCorrect(withDate, ReleaseKey);
    FilterRecentFacts(meetings, sorted, seen, i, stop, r);
  }

  /**
   * First pass of `filter_recent_10_months`: walk the meetings newest first and
   * collect release months until an eleventh distinct month shows up.
   */
  method RecentMonths(sorted: seq<MeetingMaterial>) returns (seen: set<MonthKey>, i: int, stop: bool)
    ensures 0 <= i <= |sorted|
    ensures seen == MonthsOf(sorted[..i]) && |seen| <= MaxRecentMonths
    ensures !stop ==> i == |sorted|
    ensures stop ==> i < |sorted| && ReleaseMonth(sorted[i]) !in seen && |seen| == MaxRecentMonths
  {
    seen := {};
    i := 0;
    stop := false;
    while i < |sorted| && !stop
      invariant 0 <= i <= |sorted|
      invariant seen == MonthsOf(sorted[..i]) && |seen| <= MaxRecentMonths
      invariant stop ==> i < |sorted| && ReleaseMonth(sorted[i]) !in seen && |seen| == MaxRecentMonths
      decreases |sorted| - i + (if stop then 0 else 1)
    {
      var monthKey := ReleaseMonth(sorted[i]);
      if monthKey !in seen {
        if |seen| < MaxRecentMonths {
          seen := seen + {monthKey};
        } else {
          stop := true;
        }
      }
      if !stop {
        MonthsOfSnoc(sorted, i);
        i := i + 1;
      }
    }
  }

  /** Second pass of `filter_recent_10_months`: keep the meetings of the collected months, in order. */
  method KeepMonths(sorted: seq<MeetingMaterial>, seen: set<MonthKey>) returns (r: seq<MeetingMaterial>)
    ensures r == InMonths(sorted, seen)
  {
    r := [];
    var j := 0;
    while j < |sorted|
      invariant 0 <= j <= |sorted|
      invariant r == InMonths(sorted[..j], seen)
    {
      assert sorted[..j + 1] == sorted[..j] + [sorted[j]];
      if ReleaseMonth(sorted[j]) in seen {
        r := r + [sorted[j]];
      }
      j := j + 1;
    }
    assert sorted[..j] == sorted;
  }

  /** What the two passes of `filter_recent_10_months` establish about its result. */
  lemma FilterRecentFacts(meetings: seq<MeetingMaterial>, sorted: seq<MeetingMaterial>,
                          seen: set<MonthKey>, i: int, stop: bool, r: seq<MeetingMaterial>)
    requires SortedDesc(sorted, ReleaseKey) && multiset(sorted) == multiset(Dated(meetings))
    requires 0 <= i <= |sorted| && seen == MonthsOf(sorted[..i]) && |seen| <= MaxRecentMonths
    requires !stop ==> i == |sorted|
    requires stop ==> i < |sorted| && ReleaseMonth(sorted[i]) !in seen && |seen| == MaxRecentMonths
    requires r == InMonths(sorted, seen)
    ensures MonthsOf(r) == seen
    ensures && (forall i :: 0 <= i < |r| ==> r[i].releaseDate.Some?)
      && SortedDesc(r, ReleaseKey)
      && |MonthsOf(r)| <= MaxRecentMonths
      && multiset(r) == multiset(InMonths(Dated(meetings), MonthsOf(r)))
      && (forall m :: m in meetings && m.releaseDate.Some? ==>
            ReleaseMonth(m) in MonthsOf(r)
            || (|MonthsOf(r)| == MaxRecentMonths
                && forall k :: k in MonthsOf(r) ==> MonthBefore(ReleaseMonth(m), k)))
  {
    InMonthsSorted(sorted, seen);
    InMonthsPermutation(sorted, Dated(meetings), seen);
    ResultDated(meetings, sorted, seen);
    ResultMonths(sorted, seen, i);
    forall m | m in meetings && m.releaseDate.Some?
      ensures ReleaseMonth(m) in seen
        || (|seen| == MaxRecentMonths && forall k :: k in seen ==> MonthBefore(ReleaseMonth(m), k))
    {
      assert m in Dated(meetings);
      assert m in multiset(sorted);
      var p :| 0 <= p < |sorted| && sorted[p] == m;
      LeftOutIsOlder(sorted, seen, i, stop, p);
    }
  }

  lemma ResultDated(meetings: seq<MeetingMaterial>, sorted: seq<MeetingMaterial>, seen: set<MonthKey>)
    requires multiset(sorted) == multiset(Dated(meetings))
    ensures forall k :: 0 <= k < |InMonths(sorted, seen)| ==> InMonths(sorted, seen)[k].releaseDate.Some?
  {
    var r := InMonths(sorted, seen);
    InMonthsSorted2(sorted, seen);
    forall k | 0 <= k < |r| ensures r[k].releaseDate.Some? {
      assert r[k] in multiset(sorted);
      assert r[k] in Dated(meetings);
    }
  }

  lemma {:induction false} InMonthsSorted2(ms: seq<MeetingMaterial>, months: set<MonthKey>)
    ensures multiset(InMonths(ms, months)) <= multiset(ms)
  {
    if |ms| > 0 {
      var init := ms[..|ms| - 1];
      assert ms == init + [ms[|ms| - 1]];
      InMonthsSorted2(init, months);
    }
  }

  lemma ResultMonths(sorted: seq<MeetingMaterial>, seen: set<MonthKey>, i: int)
    requires 0 <= i <= |sorted| && seen == MonthsOf(sorted[..i])
    ensures MonthsOf(InMonths(sorted, seen)) == seen
  {
    var r := InMonths(sorted, seen);
    forall k | k in seen ensures k in MonthsOf(r) {
      var q :| 0 <= q < i && ReleaseMonth(sorted[..i][q]) == k;
      assert sorted[q] == sorted[..i][q];
      assert sorted[q] in r;
      var t :| 0 <= t < |r| && r[t] == sorted[q];
    }
  }

  /** A meeting behind the cut of the first pass is older than every month kept. */
  lemma LeftOutIsOlder(sorted: seq<MeetingMaterial>, seen: set<MonthKey>, i: int, stop: bool, p: int)
    requires SortedDesc(sorted, ReleaseKey)
    requires 0 <= i <= |sorted| && seen == MonthsOf(sorted[..i])
    requires !stop ==> i == |sorted|
    requires stop ==> i < |sorted| && ReleaseMonth(sorted[i]) !in seen && |seen| == MaxRecentMonths
    requires 0 <= p < |sorted|
    ensures ReleaseMonth(sorted[p]) in seen
      || (|seen| == MaxRecentMonths && forall k :: k in seen ==> MonthBefore(ReleaseMonth(sorted[p]), k))
  {
    if p < i {
      assert sorted[..i][p] == sorted[p];
    } else {
      forall k | k in seen ensures MonthBefore(ReleaseMonth(sorted[p]), k) {
        var q :| 0 <= q < i && ReleaseMonth(sorted[..i][q]) == k;
        assert sorted[..i][q] == sorted[q];
        MonthOfMonotone(ReleaseKey(sorted[i]), ReleaseKey(sorted[q]));
        if p > i {
          MonthOfMonotone(ReleaseKey(sorted[p]), ReleaseKey(sorted[i]));
        }
      }
    }
  }
}
