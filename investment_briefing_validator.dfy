/**
 * The investment-briefing schema and its two validators, from
 * validation_agent/investment_briefing_validator.py.
 *
 * The source validator checks that every news ID and SEC filing date the
 * briefing text cites is among the briefing's own sources.  The content
 * validator tallies the verdicts an LLM returns.  The two regular-expression
 * scans of the text, JSON decoding, the LLM reply and the summary text are
 * parameters.
 */
module InvestmentValidator {
  import opened Wrappers
  import opened PyStr
  import opened SeqUtil
  import opened ValidationTypes
  import SourceTools

  // ---------------------------------------------------------------------------
  // The schema
  // ---------------------------------------------------------------------------

  datatype SecFiling = SecFiling(form: string, filedDate: string, reportingFor: string,
                                 accessionNumber: string, filePath: string)

  /** `SECFiling.to_reference` */
  function FilingReference(f: SecFiling): string {
    f.form + " (" + f.filedDate + ") - " + f.accessionNumber
  }

  datatype NewsArticle = NewsArticle(id: int, title: string, publishedAt: string, source: string)

  /** `NewsArticle.to_reference` */
  function ArticleReference(a: NewsArticle): string {
    "[" + IntStr(a.id) + "] \"" + a.title + "\" - " + a.source
  }

  /** `InvestmentBriefingSources`; the market data is not modelled. */
  datatype BriefingSources = BriefingSources(ticker: string, collectedAt: string, secFilings: seq<SecFiling>,
                                             newsArticles: seq<NewsArticle>)

  /** `InvestmentBriefing`; each round maps a role to its text. */
  datatype InvestmentBriefing = InvestmentBriefing(
    ticker: string,
    timestamp: string,
    rounds: seq<map<string, string>>,
    conclusion: string,
    readableSummary: string,
    sources: BriefingSources)

  /** `get_news_by_id`: the first article with the id. */
  function NewsById(articles: seq<NewsArticle>, id: int): (r: Option<NewsArticle>)
    ensures r.None? <==> forall i :: 0 <= i < |articles| ==> articles[i].id != id
    ensures r.Some? ==> exists i :: 0 <= i < |articles| && articles[i] == r.value && r.value.id == id
                          && forall j :: 0 <= j < i ==> articles[j].id != id
  {
    if |articles| == 0 then None
    else if articles[0].id == id then Some(articles[0])
    else
      var r := NewsById(articles[1..], id);
      assert forall i :: 0 < i < |articles| ==> articles[i] == articles[1..][i - 1];
      if r.Some? then
        ghost var k :| 0 <= k < |articles[1..]| && articles[1..][k] == r.value && r.value.id == id
                       && forall j :: 0 <= j < k ==> articles[1..][j].id != id;
        assert articles[k + 1] == r.value;
        r
      else r
  }

  /** The filings that pass a test, in order. */
  function FilingsWhere(filings: seq<SecFiling>, keep: SecFiling -> bool): (r: seq<SecFiling>)
    ensures IsSubsequence(r, filings)
    ensures forall f :: f in r <==> f in filings && keep(f)
  {
    if |filings| == 0 then []
    else
      var init := filings[..|filings| - 1];
      var last := filings[|filings| - 1];
      var r0 := FilingsWhere(init, keep);
      assert filings == init + [last];
      if keep(last) then
        SubsequenceExtend(r0, init, last);
        r0 + [last]
      else
        SubsequenceOfLonger(r0, init, last);
        r0
  }

  /** `get_sec_filing_by_form` */
  function FilingsByForm(filings: seq<SecFiling>, form: string): (r: seq<SecFiling>)
    ensures IsSubsequence(r, filings)
    ensures forall f :: f in r <==> f in filings && f.form == form
  {
    FilingsWhere(filings, (f: SecFiling) => f.form == form)
  }

  /** `get_sec_filing_by_date`: filings filed on, or reporting for, the date. */
  function FilingsByDate(filings: seq<SecFiling>, date: string): (r: seq<SecFiling>)
    ensures IsSubsequence(r, filings)
    ensures forall f :: f in r <==> f in filings && (f.filedDate == date || f.reportingFor == date)
  {
    FilingsWhere(filings, (f: SecFiling) => f.filedDate == date || f.reportingFor == date)
  }

  /** The parts of one round's text, in the fixed role order. */
  function RoundParts(n: nat, round: map<string, string>): seq<string> {
    ["=== Round " + NatStr(n) + " ==="]
      + (if "fundamental" in round then ["[FUNDAMENTAL]", round["fundamental"]] else [])
      + (if "risk" in round then ["[RISK]", round["risk"]] else [])
      + (if "growth" in round then ["[GROWTH]", round["growth"]] else [])
      + (if "sentiment" in round then ["[SENTIMENT]", round["sentiment"]] else [])
  }

  function RoundsParts(rounds: seq<map<string, string>>): seq<string> {
    if |rounds| == 0 then []
    else RoundsParts(rounds[..|rounds| - 1]) + RoundParts(|rounds|, rounds[|rounds| - 1])
  }

  /** `get_all_text_content`: the rounds, then the conclusion, separated by blank lines. */
  function AllText(b: InvestmentBriefing): string {
    Join("\n\n", RoundsParts(b.rounds) + ["=== CONCLUSION ===", b.conclusion])
  }

  // ---------------------------------------------------------------------------
  // Sorted, duplicate-free citation lists
  // ---------------------------------------------------------------------------

  /** Strictly ascending: sorted with no repeats. */
  predicate Ascending<T>(s: seq<T>, less: (T, T) -> bool) {
    forall i, j :: 0 <= i < j < |s| ==> less(s[i], s[j])
  }

  /** Add a value to an ascending list, unless it is already there. */
  function Insert<T(==,!new)>(s: seq<T>, x: T, less: (T, T) -> bool): (r: seq<T>)
    requires StrictOrder(less) && Ascending(s, less)
    ensures Ascending(r, less)
    ensures forall y :: y in r <==> y in s || y == x
  {
    if |s| == 0 then [x]
    else if x == s[0] then s
    else if less(x, s[0]) then
      assert forall k :: 0 <= k < |s| ==> less(x, s[k]);
      [x] + s
    else
      var tail := Insert(s[1..], x, less);
      assert forall y :: y in s <==> y == s[0] || y in s[1..];
      assert forall k :: 0 <= k < |tail| ==> less(s[0], tail[k]) by {
        forall k | 0 <= k < |tail| ensures less(s[0], tail[k]) {
          assert tail[k] in tail;
        }
      }
      [s[0]] + tail
  }

  /** The values of `found` inserted one by one: each once, ascending. */
  function InsertAll<T(==,!new)>(found: seq<T>, less: (T, T) -> bool): (r: seq<T>)
    requires StrictOrder(less)
    ensures Ascending(r, less) && NoDuplicates(r)
    ensures forall y :: y in r <==> y in found
  {
    if |found| == 0 then []
    else
      var init := found[..|found| - 1];
      assert found == init + [found[|found| - 1]];
      Insert(InsertAll(init, less), found[|found| - 1], less)
  }

  /**
   * The set-then-`sorted` step of the `extract_cited_*` functions: every value
   * found is added to the collection, which is kept ascending.
   */
  method SortedDistinct<T(==,!new)>(found: seq<T>, less: (T, T) -> bool) returns (r: seq<T>)
    requires StrictOrder(less)
    ensures r == InsertAll(found, less)
  {
    r := [];
    var i := 0;
    while i < |found|
      invariant 0 <= i <= |found|
      invariant r == InsertAll(found[..i], less)
    {
      assert found[..i + 1][..i] == found[..i];
      r := Insert(r, found[i], less);
      i := i + 1;
    }
    assert found[..i] == found;
  }

  function IntLess(a: int, b: int): bool { a < b }

  lemma IntLessOrder()
    ensures StrictOrder(IntLess)
  {
  }

  /** The news IDs the briefing cites: those `findIds` captures in its text, each once, ascending. */
  function CitedNewsIds(b: InvestmentBriefing, findIds: string -> seq<int>): (ids: seq<int>)
    ensures Ascending(ids, IntLess) && NoDuplicates(ids)
    ensures forall y :: y in ids <==> y in findIds(AllText(b))
  {
    IntLessOrder();
    InsertAll(findIds(AllText(b)), IntLess)
  }

  /** The SEC dates the briefing cites: those `findDates` captures in its text, each once, ascending. */
  function CitedSecDates(b: InvestmentBriefing, findDates: string -> seq<string>): (dates: seq<string>)
    ensures Ascending(dates, LexLess) && NoDuplicates(dates)
    ensures forall y :: y in dates <==> y in findDates(AllText(b))
  {
    LexLessOrder();
    InsertAll(findDates(AllText(b)), LexLess)
  }

  /** `extract_cited_news_ids`; `findIds` gives the captures of both patterns, in order. */
  method ExtractCitedNewsIds(b: InvestmentBriefing, findIds: string -> seq<int>) returns (ids: seq<int>)
    ensures ids == CitedNewsIds(b, findIds)
  {
    IntLessOrder();
    ids := SortedDistinct(findIds(AllText(b)), IntLess);
  }

  /** `extract_cited_sec_dates`; `findDates` gives the captures of the date pattern, in order. */
  method ExtractCitedSecDates(b: InvestmentBriefing, findDates: string -> seq<string>) returns (dates: seq<string>)
    ensures dates == CitedSecDates(b, findDates)
  {
    LexLessOrder();
    dates := SortedDistinct(findDates(AllText(b)), LexLess);
  }

  // ---------------------------------------------------------------------------
  // The source validator
  // ---------------------------------------------------------------------------

  /** Python's `repr` of a list of ints. */
  function IntListText(xs: seq<int>): string {
    "[" + Join(", ", seq(|xs|, k requires 0 <= k < |xs| => IntStr(xs[k]))) + "]"
  }

  /** The ids of the briefing's articles, in order. */
  function ArticleIds(articles: seq<NewsArticle>): (ids: seq<int>)
    ensures |ids| == |articles|
    ensures forall k {:trigger ids[k]} :: 0 <= k < |articles| ==> ids[k] == articles[k].id
  {
    seq(|articles|, k requires 0 <= k < |articles| => articles[k].id)
  }

  /** The match for one cited news id: VALID when an article has it, else NOT_FOUND. */
  function NewsIdMatch(articles: seq<NewsArticle>, id: int): (m: SourceMatch)
    ensures m.status == (if id in ArticleIds(articles) then Valid else NotFound)
    ensures m.sourceType == "news_article"
  {
    var claim := "뉴스 ID " + IntStr(id) + " 인용";
    if id in ArticleIds(articles) then
      var a := NewsById(articles, id);
      assert a.Some? by {
        var k :| 0 <= k < |articles| && ArticleIds(articles)[k] == id;
      }
      WithData(claim, "news_article", ArticleReference(a.value), map["id" := IntStr(id), "title" := a.value.title],
               Valid, 95, "뉴스 기사 확인됨: " + SourceTools.Prefix(a.value.title, 60))
    else
      NoData(claim, "news_article", "ID " + IntStr(id), NotFound, 0,
             "뉴스 ID " + IntStr(id) + "가 sources.news_articles에 없습니다. 사용 가능한 ID: "
             + IntListText(ArticleIds(articles)))
  }

  /** The dates the briefing's filings were filed on or report for. */
  function FilingDates(filings: seq<SecFiling>): (dates: set<string>)
    ensures forall d :: d in dates <==> exists f :: f in filings && (f.filedDate == d || f.reportingFor == d)
  {
    (set f | f in filings :: f.filedDate) + (set f | f in filings :: f.reportingFor)
  }

  /** The match for one cited SEC date: VALID when a filing has that filed or reporting date, else NOT_FOUND. */
  function SecDateMatch(filings: seq<SecFiling>, date: string): (m: SourceMatch)
    ensures m.status == (if date in FilingDates(filings) then Valid else NotFound)
    ensures m.sourceType == "sec_filing"
  {
    var claim := "SEC 공시 " + date + " 인용";
    if date in FilingDates(filings) then
      var fs := FilingsByDate(filings, date);
      assert |fs| > 0 by {
        var f :| f in filings && (f.filedDate == date || f.reportingFor == date);
        assert f in fs;
      }
      WithData(claim, "sec_filing", FilingReference(fs[0]), map["filed_date" := date, "form" := fs[0].form],
               Valid, 95, "SEC 공시 확인됨: " + fs[0].form + " (" + date + ")")
    else
      NoData(claim, "sec_filing", date, NotFound, 0, "SEC 공시 날짜 " + date + "가 sources.sec_filings에 없습니다")
  }

  /** A VALID news match cites the first article with the id. */
  lemma NewsIdMatchFound(articles: seq<NewsArticle>, id: int)
    requires id in ArticleIds(articles)
    ensures NewsById(articles, id).Some?
    ensures var a := NewsById(articles, id).value;
      NewsIdMatch(articles, id).sourceReference == ArticleReference(a)
      && NewsIdMatch(articles, id).sourceData == Some(map["id" := IntStr(id), "title" := a.title])
  {
    var k :| 0 <= k < |articles| && ArticleIds(articles)[k] == id;
  }

  /** A VALID SEC match cites the first filing filed on, or reporting for, the date. */
  lemma SecDateMatchFound(filings: seq<SecFiling>, date: string)
    requires date in FilingDates(filings)
    ensures |FilingsByDate(filings, date)| > 0
    ensures var f := FilingsByDate(filings, date)[0];
      SecDateMatch(filings, date).sourceReference == FilingReference(f)
      && SecDateMatch(filings, date).sourceData == Some(map["filed_date" := date, "form" := f.form])
  {
    var f :| f in filings && (f.filedDate == date || f.reportingFor == date);
    assert f in FilingsByDate(filings, date);
  }

  /** The issue line a NOT_FOUND news id adds. */
  function NewsIssue(id: int): string { "뉴스 ID " + IntStr(id) + " 미확인" }

  /** The issue line a NOT_FOUND SEC date adds. */
  function SecIssue(date: string): string { "SEC 공시 " + date + " 미확인" }

  /** A judge that answers VALID for the available values and NOT_FOUND for the rest. */
  ghost predicate Decides<T(!new)>(judge: T -> SourceMatch, available: T -> bool) {
    forall x :: judge(x).status == (if available(x) then Valid else NotFound)
  }

  /** The issue lines of the cited values that are not available, in order. */
  function Issues<T>(xs: seq<T>, available: T -> bool, issue: T -> string): seq<string> {
    if |xs| == 0 then []
    else Issues(xs[..|xs| - 1], available, issue) + (if available(xs[|xs| - 1]) then [] else [issue(xs[|xs| - 1])])
  }

  function NewsJudge(articles: seq<NewsArticle>): int -> SourceMatch {
    id => NewsIdMatch(articles, id)
  }

  function NewsAvailable(articles: seq<NewsArticle>): int -> bool {
    id => id in ArticleIds(articles)
  }

  function SecJudge(filings: seq<SecFiling>): string -> SourceMatch {
    date => SecDateMatch(filings, date)
  }

  function SecAvailable(filings: seq<SecFiling>): string -> bool {
    date => date in FilingDates(filings)
  }

  lemma NewsDecides(articles: seq<NewsArticle>)
    ensures Decides(NewsJudge(articles), NewsAvailable(articles))
  {
  }

  lemma SecDecides(filings: seq<SecFiling>)
    ensures Decides(SecJudge(filings), SecAvailable(filings))
  {
  }

  /** The news matches, one per cited id, in order. */
  function NewsMatches(articles: seq<NewsArticle>, ids: seq<int>): seq<SourceMatch> {
    Matches(ids, NewsJudge(articles))
  }

  /** The SEC matches, one per cited date, in order. */
  function SecMatches(filings: seq<SecFiling>, dates: seq<string>): seq<SourceMatch> {
    Matches(dates, SecJudge(filings))
  }

  /** The news ids that are not among the articles, as issue lines, in order. */
  function NewsIssues(articles: seq<NewsArticle>, ids: seq<int>): seq<string> {
    Issues(ids, NewsAvailable(articles), NewsIssue)
  }

  /** The SEC dates that no filing has, as issue lines, in order. */
  function SecIssues(filings: seq<SecFiling>, dates: seq<string>): seq<string> {
    Issues(dates, SecAvailable(filings), SecIssue)
  }

  /** Each unavailable value adds one NOT_FOUND match and one issue; the rest are VALID. */
  lemma {:induction false} IssuesCount<T(!new)>(xs: seq<T>, judge: T -> SourceMatch, available: T -> bool,
                                               issue: T -> string)
    requires Decides(judge, available)
    ensures |Issues(xs, available, issue)| == CountStatus(Matches(xs, judge), NotFound)
    ensures CountStatus(Matches(xs, judge), Valid) + CountStatus(Matches(xs, judge), NotFound) == |xs|
  {
    if |xs| > 0 {
      var init := xs[..|xs| - 1];
      IssuesCount(init, judge, available, issue);
      var m := judge(xs[|xs| - 1]);
      CountSnoc(Matches(init, judge), m, Valid);
      CountSnoc(Matches(init, judge), m, NotFound);
    }
  }

  /** No issue exactly when every cited value is available. */
  lemma {:induction false} IssuesEmpty<T>(xs: seq<T>, available: T -> bool, issue: T -> string)
    ensures |Issues(xs, available, issue)| == 0 <==> forall k :: 0 <= k < |xs| ==> available(xs[k])
  {
    if |xs| > 0 {
      var init := xs[..|xs| - 1];
      IssuesEmpty(init, available, issue);
      assert forall k :: 0 <= k < |init| ==> init[k] == xs[k];
    }
  }

  /** The checked result for the cited ids and dates, before its summary. */
  function Checked(id: string, articles: seq<NewsArticle>, ids: seq<int>, filings: seq<SecFiling>,
                   dates: seq<string>): ValidationResult {
    Tallied(id, NewsMatches(articles, ids) + SecMatches(filings, dates))
      .(overallValid := |NewsIssues(articles, ids) + SecIssues(filings, dates)| == 0)
  }

  /** The counts of a check: one match per cited id and date, each VALID or NOT_FOUND. */
  lemma CheckedCounts(id: string, articles: seq<NewsArticle>, ids: seq<int>, filings: seq<SecFiling>,
                      dates: seq<string>)
    ensures var r := Checked(id, articles, ids, filings, dates);
      r.totalClaims == |r.sourceMatches| == |ids| + |dates|
      && r.validClaims + r.notFoundClaims == r.totalClaims
      && r.invalidClaims == 0
  {
    var a := NewsMatches(articles, ids);
    var b := SecMatches(filings, dates);
    CountAppend(a, b, Valid);
    CountAppend(a, b, NotFound);
    CountsWithinTotal(a + b);
    NewsDecides(articles);
    SecDecides(filings);
    IssuesCount(ids, NewsJudge(articles), NewsAvailable(articles), NewsIssue);
    IssuesCount(dates, SecJudge(filings), SecAvailable(filings), SecIssue);
  }

  /**
   * The briefing passes exactly when every cited id names a source article and
   * every cited date is a filed or reporting date of a source filing.
   */
  lemma CheckedVerdict(id: string, articles: seq<NewsArticle>, ids: seq<int>, filings: seq<SecFiling>,
                       dates: seq<string>)
    ensures Checked(id, articles, ids, filings, dates).overallValid <==>
      (forall k :: 0 <= k < |ids| ==> ids[k] in ArticleIds(articles))
      && (forall k :: 0 <= k < |dates| ==> dates[k] in FilingDates(filings))
  {
    IssuesEmpty(ids, NewsAvailable(articles), NewsIssue);
    IssuesEmpty(dates, SecAvailable(filings), SecIssue);
  }

  /** The issues of a check: one line per cited id or date that is not in the sources. */
  lemma CheckedIssues(id: string, articles: seq<NewsArticle>, ids: seq<int>, filings: seq<SecFiling>,
                      dates: seq<string>)
    ensures |NewsIssues(articles, ids) + SecIssues(filings, dates)|
            == Checked(id, articles, ids, filings, dates).notFoundClaims
  {
    NewsDecides(articles);
    SecDecides(filings);
    IssuesCount(ids, NewsJudge(articles), NewsAvailable(articles), NewsIssue);
    IssuesCount(dates, SecJudge(filings), SecAvailable(filings), SecIssue);
    CountAppend(NewsMatches(articles, ids), SecMatches(filings, dates), NotFound);
  }

  /**
   * What `InvestmentBriefing.from_json` makes of the script text.  Every
   * `from_dict` reads its keys with a default, so any JSON object gives a
   * briefing; JSON of another shape (a top-level array, a nested value of the
   * wrong type) makes `from_dict` raise, and text that is not JSON fails to
   * decode.
   */
  datatype InvestmentJson =
    | Investment(briefing: InvestmentBriefing)
    | WrongShape(exception: string)
    | InvalidJson(message: string)

  /** What a `validate` call does: return a result, or raise (the exception named by its class). */
  datatype Validation = Returned(result: ValidationResult) | Raised(exception: string)

  /** Whether the stripped text starts like a JSON object or array. */
  predicate LooksLikeJson(script: string) {
    StartsWith(Strip(script), "{") || StartsWith(Strip(script), "[")
  }

  /** A result that checked nothing and passes. */
  function Skipped(id: string, summary: string): (r: ValidationResult)
    ensures r.overallValid && r.totalClaims == 0 && r.sourceMatches == [] && r.errors == []
  {
    NewResult(id).(summary := summary)
  }

  const SkipSourceSummary := "스크립트가 JSON 형식이 아니므로 투자 브리핑 출처 검증을 건너뜁니다."
  const SkipContentSummary := "스크립트가 JSON 형식이 아니므로 내용 검증을 건너뜁니다."
  const OtherJsonSummary := "이것은 투자 브리핑이 아닌 다른 형식의 JSON입니다. 검증을 건너뜁니다."
  const NotBriefingSummary := "투자 브리핑 형식이 아닙니다. 검증을 건너뜁니다."

  /** The result for JSON that is not an investment briefing. */
  function Unparsed(id: string, message: string): (r: ValidationResult)
    ensures !r.overallValid && r.errors == ["투자 브리핑 JSON 파싱 실패: " + message] && r.totalClaims == 0
  {
    NewResult(id).(errors := ["투자 브리핑 JSON 파싱 실패: " + message], overallValid := false)
  }

  /** Python's `repr` of a list of strings. */
  function StrListText(xs: seq<string>): string {
    "[" + Join(", ", seq(|xs|, k requires 0 <= k < |xs| => "'" + xs[k] + "'")) + "]"
  }

  /** The report the source validator writes as its summary. */
  function SourceSummary(b: InvestmentBriefing, ids: seq<int>, dates: seq<string>, r: ValidationResult,
                         issues: seq<string>): string {
    var head := [
      "📊 티커: " + b.ticker,
      "📅 생성 시간: " + b.timestamp,
      "",
      "📰 뉴스 기사: " + NatStr(|b.sources.newsArticles|) + "개 제공됨",
      "   - 인용됨: " + NatStr(|ids|) + "개 (ID: " + IntListText(ids) + ")",
      "📋 SEC 공시: " + NatStr(|b.sources.secFilings|) + "개 제공됨",
      "   - 인용됨: " + NatStr(|dates|) + "개 (날짜: " + StrListText(dates) + ")",
      "",
      "📊 검증 결과: " + IntStr(r.validClaims) + "/" + IntStr(r.totalClaims) + " 확인됨"];
    var problems := if |issues| == 0 then []
                    else ["", "⚠️ 문제점:"] + seq(|issues|, k requires 0 <= k < |issues| => "  - " + issues[k]);
    var verdict := if r.overallValid then "전체 결과: ✅ 통과" else "전체 결과: ❌ 수정 필요";
    Join("\n", head + problems + ["", verdict])
  }

  /** The source validator's result for a parsed briefing. */
  function SourceReport(id: string, b: InvestmentBriefing, findIds: string -> seq<int>,
                        findDates: string -> seq<string>): ValidationResult {
    var ids := CitedNewsIds(b, findIds);
    var dates := CitedSecDates(b, findDates);
    var articles := b.sources.newsArticles;
    var filings := b.sources.secFilings;
    var r := Checked(id, articles, ids, filings, dates);
    r.(summary := SourceSummary(b, ids, dates, r, NewsIssues(articles, ids) + SecIssues(filings, dates)))
  }

  /**
   * The loop over the cited news ids, and the one over the cited SEC dates:
   * each value adds its match and a claim, and either a VALID count or a
   * NOT_FOUND count and an issue line.
   */
  method CheckCited<T(!new)>(id: string, ghost before: seq<SourceMatch>, tally: ValidationResult, xs: seq<T>,
                             judge: T -> SourceMatch, available: T -> bool, issue: T -> string)
    returns (result: ValidationResult, issues: seq<string>)
    requires Decides(judge, available)
    requires tally == Tallied(id, before)
    ensures result == Tallied(id, before + Matches(xs, judge))
    ensures issues == Issues(xs, available, issue)
  {
    result := tally;
    issues := [];
    var i := 0;
    assert before + Matches(xs[..0], judge) == before;
    while i < |xs|
      invariant 0 <= i <= |xs|
      invariant result == Tallied(id, before + Matches(xs[..i], judge))
      invariant issues == Issues(xs[..i], available, issue)
    {
      var m := judge(xs[i]);
      ghost var ms := before + Matches(xs[..i], judge);
      assert xs[..i + 1][..i] == xs[..i];
      assert before + Matches(xs[..i + 1], judge) == ms + [m];
      TallyStep(id, ms, m);
      var found := available(xs[i]);
      result := result.(sourceMatches := result.sourceMatches + [m], totalClaims := result.totalClaims + 1,
                        validClaims := result.validClaims + (if found then 1 else 0),
                        notFoundClaims := result.notFoundClaims + (if found then 0 else 1));
      if !found {
        issues := issues + [issue(xs[i])];
      }
      i := i + 1;
    }
    assert xs[..i] == xs;
  }

  /** The loop over the cited news ids. */
  method CheckNews(id: string, ghost before: seq<SourceMatch>, tally: ValidationResult, articles: seq<NewsArticle>,
                   ids: seq<int>) returns (result: ValidationResult, issues: seq<string>)
    requires tally == Tallied(id, before)
    ensures result == Tallied(id, before + NewsMatches(articles, ids))
    ensures issues == NewsIssues(articles, ids)
  {
    NewsDecides(articles);
    result, issues := CheckCited(id, before, tally, ids, NewsJudge(articles), NewsAvailable(articles), NewsIssue);
  }

  /** The loop over the cited SEC dates. */
  method CheckSec(id: string, ghost before: seq<SourceMatch>, tally: ValidationResult, filings: seq<SecFiling>,
                  dates: seq<string>) returns (result: ValidationResult, issues: seq<string>)
    requires tally == Tallied(id, before)
    ensures result == Tallied(id, before + SecMatches(filings, dates))
    ensures issues == SecIssues(filings, dates)
  {
    SecDecides(filings);
    result, issues := CheckCited(id, before, tally, dates, SecJudge(filings), SecAvailable(filings), SecIssue);
  }

  /** The checks of `InvestmentBriefingSourceValidator.validate` on a parsed briefing. */
  method CheckBriefing(scriptId: string, b: InvestmentBriefing, findIds: string -> seq<int>,
                       findDates: string -> seq<string>) returns (result: ValidationResult)
    ensures result == SourceReport(scriptId, b, findIds, findDates)
  {
    var articles := b.sources.newsArticles;
    var filings := b.sources.secFilings;
    var ids := ExtractCitedNewsIds(b, findIds);
    var newsIssues;
    assert NewResult(scriptId) == Tallied(scriptId, []);
    result, newsIssues := CheckNews(scriptId, [], NewResult(scriptId), articles, ids);
    var dates := ExtractCitedSecDates(b, findDates);
    var secIssues;
    assert [] + NewsMatches(articles, ids) == NewsMatches(articles, ids);
    result, secIssues := CheckSec(scriptId, NewsMatches(articles, ids), result, filings, dates);
    var issues := newsIssues + secIssues;
    result := result.(overallValid := |issues| == 0);
    result := result.(summary := SourceSummary(b, ids, dates, result, issues));
  }

  /**
   * `InvestmentBriefingSourceValidator.validate`; market-data matches are not
   * modelled.  Text that is not JSON reaches the handler for decode errors,
   * where decoding it again fails as well, so the handler's checks for other
   * script formats never apply and the result is the parse error.  An
   * exception of `from_dict` is not caught.
   */
  method ValidateSources(script: string, scriptId: string, loads: string -> InvestmentJson,
                         findIds: string -> seq<int>, findDates: string -> seq<string>)
    returns (r: Validation)
    ensures !LooksLikeJson(script) ==> r == Returned(Skipped(scriptId, SkipSourceSummary))
    ensures LooksLikeJson(script) ==>
      match loads(script)
      case Investment(b) => r == Returned(SourceReport(scriptId, b, findIds, findDates))
      case WrongShape(exception) => r == Raised(exception)
      case InvalidJson(message) => r == Returned(Unparsed(scriptId, message))
  {
    var result := NewResult(scriptId);
    var stripped := Strip(script);
    if !(StartsWith(stripped, "{") || StartsWith(stripped, "[")) {
      result := result.(summary := SkipSourceSummary, overallValid := true);
      return Returned(result);
    }
    match loads(script)
    case WrongShape(exception) =>
      return Raised(exception);
    case InvalidJson(message) =>
      result := result.(errors := result.errors + ["투자 브리핑 JSON 파싱 실패: " + message], overallValid := false);
      return Returned(result);
    case Investment(b) =>
      result := CheckBriefing(scriptId, b, findIds, findDates);
      return Returned(result);
  }

  // ---------------------------------------------------------------------------
  // The content validator
  // ---------------------------------------------------------------------------

  /** One `source_verification` entry of the LLM's reply, defaults applied. */
  datatype SourceVerification = SourceVerification(sourceType: string, sourceId: string, citedContent: string,
                                                   matchesSource: bool, explanation: string)

  /** One `factual_claims` entry of the LLM's reply, defaults applied. */
  datatype FactualClaim = FactualClaim(claim: string, sourceSupport: string, status: string, explanation: string)

  /** The LLM's reply; the accuracy score is in hundredths. */
  datatype ContentReply =
    | ContentReply(verifications: seq<SourceVerification>, claims: seq<FactualClaim>, summary: string,
                   accuracyScore: int)
    | ContentFailure(message: string)

  /** The status of a verified source: VALID when it matches, else INVALID. */
  function VerificationMatch(v: SourceVerification): (m: SourceMatch)
    ensures m.status == (if v.matchesSource then Valid else Invalid)
  {
    NoData(v.citedContent, v.sourceType, v.sourceId, if v.matchesSource then Valid else Invalid,
           if v.matchesSource then 85 else 50, v.explanation)
  }

  /** The status of a factual claim: verified is VALID, incorrect INVALID, anything else PARTIAL. */
  function FactualStatus(status: string): (st: ValidationStatus)
    ensures Lower(status) == "verified" <==> st == Valid
    ensures Lower(status) == "incorrect" <==> st == Invalid
    ensures st in {Valid, Invalid, Partial}
  {
    var s := Lower(status);
    if s == "verified" then Valid else if s == "incorrect" then Invalid else Partial
  }

  function ClaimMatch(c: FactualClaim): (m: SourceMatch)
    ensures m.status == FactualStatus(c.status)
  {
    var st := FactualStatus(c.status);
    NoData(c.claim, "content", c.sourceSupport, st, if st == Valid then 80 else 40, c.explanation)
  }

  /** The result of a reply's entries: each is a claim, and only VALID and INVALID ones are counted. */
  function ContentTally(id: string, vs: seq<SourceVerification>, cs: seq<FactualClaim>): ValidationResult {
    Tallied(id, Matches(vs, VerificationMatch) + Matches(cs, ClaimMatch))
  }

  /** Every verified source is counted, as VALID or as INVALID. */
  lemma {:induction false} VerificationCounts(vs: seq<SourceVerification>)
    ensures CountStatus(Matches(vs, VerificationMatch), Valid) + CountStatus(Matches(vs, VerificationMatch), Invalid) == |vs|
  {
    if |vs| > 0 {
      var init := vs[..|vs| - 1];
      VerificationCounts(init);
      CountSnoc(Matches(init, VerificationMatch), VerificationMatch(vs[|vs| - 1]), Valid);
      CountSnoc(Matches(init, VerificationMatch), VerificationMatch(vs[|vs| - 1]), Invalid);
    }
  }

  /** Every factual claim is VALID, INVALID or PARTIAL. */
  lemma {:induction false} ClaimCounts(cs: seq<FactualClaim>)
    ensures var ms := Matches(cs, ClaimMatch);
      CountStatus(ms, Valid) + CountStatus(ms, Invalid) + CountStatus(ms, Partial) == |cs|
  {
    if |cs| > 0 {
      var init := cs[..|cs| - 1];
      var m := ClaimMatch(cs[|cs| - 1]);
      ClaimCounts(init);
      CountSnoc(Matches(init, ClaimMatch), m, Valid);
      CountSnoc(Matches(init, ClaimMatch), m, Invalid);
      CountSnoc(Matches(init, ClaimMatch), m, Partial);
    }
  }

  /**
   * One claim per entry of the reply; the claims that raise neither the VALID
   * nor the INVALID count are exactly the PARTIAL factual claims.
   */
  lemma ContentTallySpec(id: string, vs: seq<SourceVerification>, cs: seq<FactualClaim>)
    ensures var r := ContentTally(id, vs, cs);
      r.totalClaims == |r.sourceMatches| == |vs| + |cs|
      && r.validClaims + r.invalidClaims + CountStatus(Matches(cs, ClaimMatch), Partial) == r.totalClaims
  {
    VerificationCounts(vs);
    ClaimCounts(cs);
    CountAppend(Matches(vs, VerificationMatch), Matches(cs, ClaimMatch), Valid);
    CountAppend(Matches(vs, VerificationMatch), Matches(cs, ClaimMatch), Invalid);
    CountAppend(Matches(vs, VerificationMatch), Matches(cs, ClaimMatch), Partial);
  }

  /**
   * Both loops over the reply: each entry adds its match, a claim, and a VALID
   * or INVALID count if it has one of those statuses.
   */
  method TallyContent<T(!new)>(id: string, ghost before: seq<SourceMatch>, tally: ValidationResult, xs: seq<T>,
                               judge: T -> SourceMatch)
    returns (result: ValidationResult)
    requires forall x :: judge(x).status != NotFound
    requires tally == Tallied(id, before)
    ensures result == Tallied(id, before + Matches(xs, judge))
  {
    result := tally;
    var i := 0;
    assert before + Matches(xs[..0], judge) == before;
    while i < |xs|
      invariant 0 <= i <= |xs|
      invariant result == Tallied(id, before + Matches(xs[..i], judge))
    {
      var m := judge(xs[i]);
      ghost var ms := before + Matches(xs[..i], judge);
      assert xs[..i + 1][..i] == xs[..i];
      assert before + Matches(xs[..i + 1], judge) == ms + [m];
      TallyStep(id, ms, m);
      result := result.(sourceMatches := result.sourceMatches + [m], totalClaims := result.totalClaims + 1,
                        validClaims := result.validClaims + (if m.status == Valid then 1 else 0),
                        invalidClaims := result.invalidClaims + (if m.status == Invalid then 1 else 0));
      i := i + 1;
    }
    assert xs[..i] == xs;
  }

  /** The content validator's result once the LLM has replied. */
  method ContentFromReply(scriptId: string, reply: ContentReply) returns (result: ValidationResult)
    ensures match reply
      case ContentFailure(message) => result == NewResult(scriptId).(errors := [message], overallValid := false)
      case ContentReply(vs, cs, summary, score) =>
        result == ContentTally(scriptId, vs, cs).(summary := summary, overallValid := score >= 70)
  {
    result := NewResult(scriptId);
    if reply.ContentFailure? {
      result := result.(errors := result.errors + [reply.message], overallValid := false);
      return;
    }
    assert result == Tallied(scriptId, []);
    result := TallyContent(scriptId, [], result, reply.verifications, VerificationMatch);
    ghost var first := Matches(reply.verifications, VerificationMatch);
    assert [] + first == first;
    result := TallyContent(scriptId, first, result, reply.claims, ClaimMatch);
    result := result.(summary := reply.summary, overallValid := reply.accuracyScore >= 70);
  }

  /**
   * `InvestmentBriefingContentValidator.validate` once the LLM has replied;
   * as in the source validator, only a decode error reaches the handler and
   * an exception of `from_dict` escapes.
   */
  method ValidateContent(script: string, scriptId: string, loads: string -> InvestmentJson,
                         llm: InvestmentBriefing -> ContentReply) returns (r: Validation)
    ensures !LooksLikeJson(script) ==> r == Returned(Skipped(scriptId, SkipContentSummary))
    ensures LooksLikeJson(script) ==>
      match loads(script)
      case WrongShape(exception) => r == Raised(exception)
      case InvalidJson(message) => r == Returned(Unparsed(scriptId, message))
      case Investment(b) =>
        match llm(b)
        case ContentFailure(message) => r == Returned(NewResult(scriptId).(errors := [message], overallValid := false))
        case ContentReply(vs, cs, summary, score) =>
          r == Returned(ContentTally(scriptId, vs, cs).(summary := summary, overallValid := score >= 70))
  {
    var result := NewResult(scriptId);
    var stripped := Strip(script);
    if !(StartsWith(stripped, "{") || StartsWith(stripped, "[")) {
      result := result.(summary := SkipContentSummary, overallValid := true);
      return Returned(result);
    }
    match loads(script)
    case WrongShape(exception) =>
      return Raised(exception);
    case InvalidJson(message) =>
      result := result.(errors := result.errors + ["투자 브리핑 JSON 파싱 실패: " + message], overallValid := false);
      return Returned(result);
    case Investment(b) =>
      result := ContentFromReply(scriptId, llm(b));
      return Returned(result);
  }
}
