/**
 * The generate, critique and revise loop of the closing briefing
 * (closing_briefing/graph.py): the parser that turns the critic's report
 * into `CriticFeedback`, the revision rule and the two routers, the keyword
 * scan, the bounded tool-call loop around the language model, the three
 * nodes, and the graph they form.
 *
 * The language model is a parameter (`Llm`): given the conversation so far
 * and whether tools are offered, it either answers (with tool calls or
 * not) or raises.  The prompts are not modelled: a conversation opens with
 * an `Opening` message naming the node and the state its prompts read.
 */
module BriefingGraph {
  import opened Wrappers
  import opened PyStr
  import opened BriefingModels
  import BT = BriefingTools
  import SeqUtil

  // ---------------------------------------------------------------------------
  // Reading the critic's report

  // The section headings of the report.
  const SummaryHeading := "### 요약 평가"
  const CriticalHeading := "### 핵심 검증 결과"
  const ChecklistHeading := "### 체크리스트"
  const ContentHeading := "### 내용 체크리스트"
  const StyleHeading := "### 스타일 체크리스트"
  const HallucinationHeading := "### 환각 발견 목록"
  const SuggestionHeading := "### 구체적인 수정 제안"

  /** The marker that says the hallucination section lists nothing. */
  const NoHallucinations := "환각 없음"

  const HallucinationItemName := "1. 환각(Hallucination) 검증"
  const TimelinessItemName := "2. 시의성(Timeliness) 검증"
  const ValueItemName := "3. 정보 가치(Value) 검증"
  const UnparsedSummary := "평가를 파싱할 수 없습니다."

  const Arrow := "→"
  const Bullet := '•'

  /** `s[i:j]` for non-negative bounds. */
  function Slice(s: string, i: nat, j: nat): (r: string)
    ensures |r| <= |s|
    ensures i <= j <= |s| ==> r == s[i..j]
  {
    var a := if i < |s| then i else |s|;
    var b := if j < |s| then j else |s|;
    if a < b then s[a..b] else ""
  }

  /** A section from its heading: up to the next heading found, else at most `cap` characters. */
  function Section(r: string, start: nat, end: int, cap: nat): string {
    if end != -1 then Slice(r, start, if end < 0 then 0 else end) else Slice(r, start, start + cap)
  }

  /** The first of the headings (in the order given) that occurs, as `find` chains it. */
  function FindFirst(r: string, headings: seq<string>): (k: int)
    ensures k == -1 || 0 <= k < |r| || (k == |r| && |headings| > 0)
  {
    if |headings| == 0 then -1
    else
      var k := Find(r, headings[0]);
      if k != -1 then k else FindFirst(r, headings[1..])
  }

  /** The summary evaluation, before the default for an empty one. */
  function SummaryText(r: string): string {
    var start := Find(r, SummaryHeading);
    var end := FindFirst(r, [CriticalHeading, ChecklistHeading, ContentHeading]);
    if start == -1 then ""
    else if end != -1 then Strip(Slice(r, start + |SummaryHeading|, end))
    else BT.Take(Strip(r[start + |SummaryHeading|..]), 500)
  }

  /** `parse_checklist_item`'s status: the serious marker is tested before the plain one, and "met" is the default. */
  function MarkedStatus(text: string): string {
    if Contains(text, SeriousShortfall) then SeriousShortfall
    else if Contains(text, Shortfall) then Shortfall
    else Met
  }

  /** The markers whose first occurrence starts an explanation, in the order tried. */
  const StatusMarkers: seq<string> :=
    ["**" + Met + "**", "**" + Shortfall + "**", "**" + SeriousShortfall + "**", Met, Shortfall, SeriousShortfall]

  /** The text after the first marker found (trimmed, leading dashes dropped), or all of `text`. */
  function AfterMarker(text: string, markers: seq<string>): string {
    if |markers| == 0 then text
    else if Contains(text, markers[0]) then
      var k := Find(text, markers[0]);
      Strip(LStripChars(Strip(text[k + |markers[0]|..]), {'-'}))
    else AfterMarker(text, markers[1..])
  }

  /** `parse_checklist_item(text, item_name)` */
  function MarkedItem(text: string, name: string): ChecklistItem {
    ChecklistItem(name, MarkedStatus(text), BT.Take(AfterMarker(text, StatusMarkers), 500))
  }

  /** The explanation loop of `parse_checklist_item`: the first marker that occurs wins. */
  method ExplainItem(text: string, markers: seq<string>) returns (explanation: string)
    ensures explanation == AfterMarker(text, markers)
  {
    explanation := text;
    for i := 0 to |markers|
      invariant AfterMarker(text, markers) == AfterMarker(text, markers[i..])
      invariant explanation == text
    {
      assert markers[i..][1..] == markers[i + 1..];
      if Contains(explanation, markers[i]) {
        var k := Find(explanation, markers[i]);
        explanation := Strip(LStripChars(Strip(explanation[k + |markers[i]|..]), {'-'}));
        return;
      }
    }
  }

  method ParseChecklistItem(text: string, name: string) returns (item: ChecklistItem)
    ensures item == MarkedItem(text, name)
  {
    var status := Met;
    if Contains(text, SeriousShortfall) {
      status := SeriousShortfall;
    } else if Contains(text, Shortfall) {
      status := Shortfall;
    }
    var explanation := ExplainItem(text, StatusMarkers);
    item := ChecklistItem(name, status, BT.Take(explanation, 500));
  }

  /** The four critical checks, as the critic's report leaves them. */
  datatype CriticalChecks = CriticalChecks(
    hallucination: ChecklistItem, timeliness: ChecklistItem, value: ChecklistItem, citation: ChecklistItem)

  function Unparsed(name: string): ChecklistItem {
    ChecklistItem(name, Met, UnparsedExplanation)
  }

  function DefaultChecks(): CriticalChecks {
    CriticalChecks(Unparsed(HallucinationItemName), Unparsed(TimelinessItemName), Unparsed(ValueItemName),
                   Unparsed(CitationItemName))
  }

  /** The check a stripped line of the critical section sets: the first topic it names, in this order. */
  function CheckLine(c: CriticalChecks, line: string): CriticalChecks {
    if Contains(line, "환각") || Contains(line, "Hallucination") then
      c.(hallucination := MarkedItem(line, HallucinationItemName))
    else if Contains(line, "시의성") || Contains(line, "Timeliness") then
      c.(timeliness := MarkedItem(line, TimelinessItemName))
    else if Contains(line, "정보 가치") || Contains(line, "Value") then
      c.(value := MarkedItem(line, ValueItemName))
    else if Contains(line, "출처") || Contains(line, "Source Citation") then
      c.(citation := MarkedItem(line, CitationItemName))
    else c
  }

  /** The checks after the critical section's lines, in order: a later line about a topic overrides. */
  function CheckLines(c: CriticalChecks, lines: seq<string>): CriticalChecks {
    if |lines| == 0 then c else CheckLine(CheckLines(c, lines[..|lines| - 1]), Strip(lines[|lines| - 1]))
  }

  /** The critical section, when its heading occurs. */
  function CriticalSection(r: string): Option<string> {
    var start := Find(r, CriticalHeading);
    if start == -1 then None
    else Some(Section(r, start, FindFirst(r, [ContentHeading, StyleHeading]), 1500))
  }

  method ParseCriticalLines(lines: seq<string>) returns (checks: CriticalChecks)
    ensures checks == CheckLines(DefaultChecks(), lines)
  {
    checks := DefaultChecks();
    for i := 0 to |lines|
      invariant checks == CheckLines(DefaultChecks(), lines[..i])
    {
      assert lines[..i + 1][..i] == lines[..i];
      var line := Strip(lines[i]);
      if Contains(line, "환각") || Contains(line, "Hallucination") {
        var item := ParseChecklistItem(line, HallucinationItemName);
        checks := checks.(hallucination := item);
      } else if Contains(line, "시의성") || Contains(line, "Timeliness") {
        var item := ParseChecklistItem(line, TimelinessItemName);
        checks := checks.(timeliness := item);
      } else if Contains(line, "정보 가치") || Contains(line, "Value") {
        var item := ParseChecklistItem(line, ValueItemName);
        checks := checks.(value := item);
      } else if Contains(line, "출처") || Contains(line, "Source Citation") {
        var item := ParseChecklistItem(line, CitationItemName);
        checks := checks.(citation := item);
      }
    }
    assert lines[..|lines|] == lines;
  }

  /** What each stripped line contributes, joined in order. */
  function Collected<T>(lines: seq<string>, pick: string -> seq<T>): seq<T> {
    if |lines| == 0 then [] else Collected(lines[..|lines| - 1], pick) + pick(Strip(lines[|lines| - 1]))
  }

  /** The line loops of the parser: strip each line and keep what `pick` takes from it. */
  method CollectLines<T>(lines: seq<string>, pick: string -> seq<T>) returns (out: seq<T>)
    ensures out == Collected(lines, pick)
  {
    out := [];
    for i := 0 to |lines|
      invariant out == Collected(lines[..i], pick)
    {
      assert lines[..i + 1][..i] == lines[..i];
      out := out + pick(Strip(lines[i]));
    }
    assert lines[..|lines|] == lines;
  }

  /** A listed hallucination: the text before the first arrow and the text up to the next one. */
  function HallucinationOf(line: string): HallucinationItem
    requires Contains(line, Arrow)
  {
    var k := Find(line, Arrow);
    var rest := line[k + 1..];
    var k2 := Find(rest, Arrow);
    HallucinationItem(Strip(LStripChars(line[..k], {'-'})), Strip(if k2 == -1 then rest else rest[..k2]))
  }

  /** A line of the hallucination section lists one when it starts with a dash and holds an arrow. */
  function HallucinationPick(line: string): (hs: seq<HallucinationItem>)
    ensures |hs| <= 1
  {
    if StartsWith(line, "-") && Contains(line, Arrow) then [HallucinationOf(line)] else []
  }

  /** The hallucination section, when its heading occurs. */
  function HallucinationSection(r: string): Option<string> {
    var start := Find(r, HallucinationHeading);
    if start == -1 then None else Some(Section(r, start, Find(r, SuggestionHeading), 1000))
  }

  function Hallucinations(r: string): seq<HallucinationItem> {
    match HallucinationSection(r)
    case None => []
    case Some(text) => if Contains(text, NoHallucinations) then [] else Collected(Split(text, "\n"), HallucinationPick)
  }

  /** A checklist line: a dash, a "met" or "shortfall" marker, and a colon before the explanation. */
  function ChecklistPick(line: string): (items: seq<ChecklistItem>)
    ensures |items| <= 1
  {
    if StartsWith(line, "-") && (Contains(line, Met) || Contains(line, Shortfall)) && Contains(line, ":") then
      var k := Find(line, ":");
      [ChecklistItem(Strip(RemoveChar(line[..k], '-')),
                     if Contains(line, Met) && !Contains(line, Shortfall) then Met else Shortfall,
                     BT.Take(Strip(line[k + 1..]), 500))]
    else []
  }

  function ContentSection(r: string): Option<string> {
    var start := Find(r, ContentHeading);
    if start == -1 then None else Some(Section(r, start, Find(r, StyleHeading), 1500))
  }

  function StyleSection(r: string): Option<string> {
    var start := Find(r, StyleHeading);
    if start == -1 then None else Some(Section(r, start, FindFirst(r, [HallucinationHeading, SuggestionHeading]), 1500))
  }

  function ChecklistOf(section: Option<string>): seq<ChecklistItem> {
    match section
    case None => []
    case Some(text) => Collected(Split(text, "\n"), ChecklistPick)
  }

  /** A suggestion: a dash or bullet line, without its leading marks, when anything is left. */
  function SuggestionPick(line: string): (ss: seq<string>)
    ensures |ss| <= 1
  {
    if StartsWith(line, "-") || StartsWith(line, [Bullet]) then
      var s := Strip(LStripChars(line, {'-', Bullet}));
      if s != "" then [s] else []
    else []
  }

  function Suggestions(r: string): seq<string> {
    var start := Find(r, SuggestionHeading);
    if start == -1 then [] else Collected(Split(r[start + |SuggestionHeading|..], "\n"), SuggestionPick)
  }

  /** What a critical check adds to `critical_issues`. */
  function Weight(status: string): nat {
    if status == SeriousShortfall then 2 else if status == Shortfall then 1 else 0
  }

  function CriticalIssues(h: ChecklistItem, t: ChecklistItem, v: ChecklistItem): nat {
    Weight(h.status) + Weight(t.status) + Weight(v.status)
  }

  /** `sum(1 for item in checklist if "shortfall" in item.status)` */
  function ShortfallCount(items: seq<ChecklistItem>): (n: nat)
    ensures n <= |items|
  {
    if |items| == 0 then 0
    else ShortfallCount(items[..|items| - 1]) + (if Contains(items[|items| - 1].status, Shortfall) then 1 else 0)
  }

  /** The grade for a count of critical issues, whether a hallucination was found, and a count of checklist shortfalls. */
  function Grade(issues: nat, hallucinated: bool, shortfalls: nat): string {
    if issues >= 2 || hallucinated then Severe
    else if issues == 1 || shortfalls >= 4 then Poor
    else if shortfalls >= 2 then Fair
    else if shortfalls == 1 then Good
    else Excellent
  }

  /** The overall grade from the critical checks, the hallucinations and the checklist. */
  function OverallQuality(h: ChecklistItem, t: ChecklistItem, v: ChecklistItem, hallucinations: seq<HallucinationItem>,
                          checklist: seq<ChecklistItem>): string {
    Grade(CriticalIssues(h, t, v), |hallucinations| > 0, ShortfallCount(checklist))
  }

  /** The critical checks the report sets, defaults where it says nothing. */
  function ChecksOf(r: string): CriticalChecks {
    match CriticalSection(r)
    case None => DefaultChecks()
    case Some(text) => CheckLines(DefaultChecks(), Split(text, "\n"))
  }

  /** The content checklist followed by the style checklist. */
  function Checklist(r: string): seq<ChecklistItem> {
    ChecklistOf(ContentSection(r)) + ChecklistOf(StyleSection(r))
  }

  /** The feedback the parts make, graded, with the default for an empty summary. */
  function Assembled(summary: string, checks: CriticalChecks, hallucinations: seq<HallucinationItem>,
                     checklist: seq<ChecklistItem>, suggestions: seq<string>): CriticFeedback {
    CriticFeedback(if summary == "" then UnparsedSummary else summary,
                   checks.hallucination, checks.timeliness, checks.value, checks.citation,
                   hallucinations, checklist, suggestions,
                   OverallQuality(checks.hallucination, checks.timeliness, checks.value, hallucinations, checklist))
  }

  /** `_parse_critic_response` as a value. */
  function ParsedFeedback(r: string): CriticFeedback {
    Assembled(SummaryText(r), ChecksOf(r), Hallucinations(r), Checklist(r), Suggestions(r))
  }

  method ParseChecks(response: string) returns (checks: CriticalChecks)
    ensures checks == ChecksOf(response)
  {
    checks := DefaultChecks();
    var critical := CriticalSection(response);
    if critical.Some? {
      checks := ParseCriticalLines(Split(critical.value, "\n"));
    }
  }

  method ParseHallucinations(response: string) returns (hallucinations: seq<HallucinationItem>)
    ensures hallucinations == Hallucinations(response)
  {
    hallucinations := [];
    var text := HallucinationSection(response);
    if text.Some? && !Contains(text.value, NoHallucinations) {
      hallucinations := CollectLines(Split(text.value, "\n"), HallucinationPick);
    }
  }

  method ParseChecklist(response: string) returns (checklist: seq<ChecklistItem>)
    ensures checklist == Checklist(response)
  {
    checklist := [];
    var content := ContentSection(response);
    if content.Some? {
      checklist := CollectLines(Split(content.value, "\n"), ChecklistPick);
    }
    var style := StyleSection(response);
    if style.Some? {
      var more := CollectLines(Split(style.value, "\n"), ChecklistPick);
      checklist := checklist + more;
    }
  }

  method ParseSuggestions(response: string) returns (suggestions: seq<string>)
    ensures suggestions == Suggestions(response)
  {
    suggestions := [];
    var start := Find(response, SuggestionHeading);
    if start != -1 {
      suggestions := CollectLines(Split(response[start + |SuggestionHeading|..], "\n"), SuggestionPick);
    }
  }

  /** `_parse_critic_response` */
  method ParseCriticResponse(response: string) returns (f: CriticFeedback)
    ensures f == ParsedFeedback(response)
  {
    var checks := ParseChecks(response);
    var hallucinations := ParseHallucinations(response);
    var checklist := ParseChecklist(response);
    var suggestions := ParseSuggestions(response);
    f := Assembled(SummaryText(response), checks, hallucinations, checklist, suggestions);
  }

  // ---------------------------------------------------------------------------
  // What the parser promises

  /** The serious marker holds the plain one, so a line with it also holds a plain shortfall. */
  lemma SeriousHasShortfall(text: string)
    requires Contains(text, SeriousShortfall)
    ensures Contains(text, Shortfall)
  {
    var i :| 0 <= i <= |text| - |SeriousShortfall| && OccursAt(text, SeriousShortfall, i);
    assert SeriousShortfall[4..] == Shortfall;
    assert text[i + 4..i + 6] == text[i..i + 6][4..];
    assert OccursAt(text, Shortfall, i + 4);
  }

  /**
   * A check's status is one of the three: serious exactly when the text has
   * the serious marker, and a failure exactly when it has "shortfall" in
   * either form.
   */
  lemma MarkedStatusRule(text: string)
    ensures var s := MarkedStatus(text);
      (s == Met || s == Shortfall || s == SeriousShortfall)
      && (s == SeriousShortfall <==> Contains(text, SeriousShortfall))
      && (Failed(s) <==> Contains(text, Shortfall))
  {
    if Contains(text, SeriousShortfall) {
      SeriousHasShortfall(text);
    }
  }

  /** Every element collected was taken from one of the lines. */
  lemma {:induction false} CollectedFrom<T>(lines: seq<string>, pick: string -> seq<T>)
    ensures forall x :: x in Collected(lines, pick) ==> exists i :: 0 <= i < |lines| && x in pick(Strip(lines[i]))
  {
    if |lines| > 0 {
      var init := lines[..|lines| - 1];
      CollectedFrom(init, pick);
      forall x | x in Collected(lines, pick)
        ensures exists i :: 0 <= i < |lines| && x in pick(Strip(lines[i]))
      {
        if x in Collected(init, pick) {
          var i :| 0 <= i < |init| && x in pick(Strip(init[i]));
          assert lines[i] == init[i];
        } else {
          assert x in pick(Strip(lines[|lines| - 1]));
        }
      }
    }
  }

  /** A pick that takes at most one element per line collects at most one per line. */
  lemma {:induction false} CollectedAtMostLines<T>(lines: seq<string>, pick: string -> seq<T>)
    requires forall l :: |pick(l)| <= 1
    ensures |Collected(lines, pick)| <= |lines|
  {
    if |lines| > 0 {
      CollectedAtMostLines(lines[..|lines| - 1], pick);
    }
  }

  /** Each hallucination collected from some lines comes from a dash line with an arrow in it. */
  lemma HallucinationLines(lines: seq<string>)
    ensures forall h :: h in Collected(lines, HallucinationPick) ==>
      exists line :: StartsWith(line, "-") && Contains(line, Arrow) && h == HallucinationOf(line)
  {
    CollectedFrom(lines, HallucinationPick);
    forall h | h in Collected(lines, HallucinationPick)
      ensures exists line :: StartsWith(line, "-") && Contains(line, Arrow) && h == HallucinationOf(line)
    {
      var i :| 0 <= i < |lines| && h in HallucinationPick(Strip(lines[i]));
      var line := Strip(lines[i]);
      assert StartsWith(line, "-") && Contains(line, Arrow);
      assert HallucinationPick(line) == [HallucinationOf(line)];
    }
  }

  /**
   * Hallucinations are read only when the section exists and lacks the "none"
   * marker, and each comes from a dash line with an arrow in it.
   */
  lemma HallucinationsListed(r: string)
    ensures HallucinationSection(r).None? ==> Hallucinations(r) == []
    ensures HallucinationSection(r).Some? && Contains(HallucinationSection(r).value, NoHallucinations)
            ==> Hallucinations(r) == []
    ensures forall h :: h in Hallucinations(r) ==>
      exists line :: StartsWith(line, "-") && Contains(line, Arrow) && h == HallucinationOf(line)
  {
    var section := HallucinationSection(r);
    if section.Some? && !Contains(section.value, NoHallucinations) {
      HallucinationLines(Split(section.value, "\n"));
    }
  }

  /** A collected suggestion is a non-empty dash or bullet line without its leading marks and spaces. */
  ghost predicate SuggestionFromLine(s: string) {
    s != "" && exists line :: (StartsWith(line, "-") || StartsWith(line, [Bullet])) && s == Strip(LStripChars(line, {'-', Bullet}))
  }

  lemma SuggestionPicked(line: string)
    ensures forall s :: s in SuggestionPick(line) ==> SuggestionFromLine(s)
  {
    if StartsWith(line, "-") || StartsWith(line, [Bullet]) {
      var s := Strip(LStripChars(line, {'-', Bullet}));
      if s != "" {
        assert SuggestionPick(line) == [s];
        assert SuggestionFromLine(s);
      }
    }
  }

  lemma SuggestionLines(lines: seq<string>)
    ensures forall s :: s in Collected(lines, SuggestionPick) ==> SuggestionFromLine(s)
  {
    CollectedFrom(lines, SuggestionPick);
    forall s | s in Collected(lines, SuggestionPick) ensures SuggestionFromLine(s) {
      var i :| 0 <= i < |lines| && s in SuggestionPick(Strip(lines[i]));
      SuggestionPicked(Strip(lines[i]));
    }
  }

  /** Suggestions are read only after the suggestion heading, and each comes from a dash or bullet line. */
  lemma SuggestionsListed(r: string)
    ensures !Contains(r, SuggestionHeading) ==> Suggestions(r) == []
    ensures forall s :: s in Suggestions(r) ==> SuggestionFromLine(s)
  {
    var start := Find(r, SuggestionHeading);
    if start != -1 {
      SuggestionLines(Split(r[start + |SuggestionHeading|..], "\n"));
    }
  }

  /** The hallucination section runs from its heading up to the suggestion heading when that one follows it. */
  lemma HallucinationSectionEnds(r: string)
    requires Contains(r, HallucinationHeading) && Contains(r, SuggestionHeading)
    requires Find(r, HallucinationHeading) <= Find(r, SuggestionHeading)
    ensures HallucinationSection(r) == Some(r[Find(r, HallucinationHeading)..Find(r, SuggestionHeading)])
  {
  }

  /** The items read from one section are only "met" or "shortfall". */
  lemma SectionStatuses(section: Option<string>)
    ensures forall item :: item in ChecklistOf(section) ==> item.status == Met || item.status == Shortfall
  {
    if section.Some? {
      var lines := Split(section.value, "\n");
      CollectedFrom(lines, ChecklistPick);
      forall item | item in Collected(lines, ChecklistPick) ensures item.status == Met || item.status == Shortfall {
        var i :| 0 <= i < |lines| && item in ChecklistPick(Strip(lines[i]));
        ChecklistPicked(Strip(lines[i]));
      }
    }
  }

  lemma ChecklistPicked(line: string)
    ensures forall item :: item in ChecklistPick(line) ==> item.status == Met || item.status == Shortfall
  {
  }

  /** Checklist items are only "met" or "shortfall", the serious form counting as a shortfall. */
  lemma ChecklistStatuses(r: string)
    ensures forall item :: item in Checklist(r) ==> item.status == Met || item.status == Shortfall
  {
    var content, style := ContentSection(r), StyleSection(r);
    SectionStatuses(content);
    SectionStatuses(style);
    assert Checklist(r) == ChecklistOf(content) + ChecklistOf(style);
  }

  /** The order of the grades, best first. */
  function QualityRank(q: string): nat {
    if q == Excellent then 0 else if q == Good then 1 else if q == Fair then 2 else if q == Poor then 3 else 4
  }

  /**
   * The grade is "severe" exactly with two critical issues or a hallucination,
   * "excellent" exactly with nothing wrong at all, and it never improves when
   * more is wrong.
   */
  lemma GradeRule(issues: nat, hallucinated: bool, shortfalls: nat, issues2: nat, hallucinated2: bool, shortfalls2: nat)
    ensures Grade(issues, hallucinated, shortfalls) == Severe <==> issues >= 2 || hallucinated
    ensures Grade(issues, hallucinated, shortfalls) == Excellent <==> issues == 0 && !hallucinated && shortfalls == 0
    ensures issues <= issues2 && (hallucinated ==> hallucinated2) && shortfalls <= shortfalls2 ==>
      QualityRank(Grade(issues, hallucinated, shortfalls)) <= QualityRank(Grade(issues2, hallucinated2, shortfalls2))
  {
  }

  /**
   * For feedback graded by the parser, revision is needed exactly when a
   * hallucination was found, any critical check falls short, or at least four
   * checklist items do.
   */
  lemma GradedNeedsRevision(f: CriticFeedback)
    requires f.overallQuality == OverallQuality(f.hallucinationCheck, f.timelinessCheck, f.valueCheck,
                                                f.hallucinationsFound, f.checklist)
    ensures NeedsRevision(f) <==>
      |f.hallucinationsFound| > 0 || CriticalIssues(f.hallucinationCheck, f.timelinessCheck, f.valueCheck) > 0
      || ShortfallCount(f.checklist) >= 4
  {
    assert forall s :: Failed(s) <==> Weight(s) > 0;
  }

  /** What the parser makes of any report needs revision on the same terms. */
  lemma ParsedNeedsRevision(r: string)
    ensures var f := ParsedFeedback(r);
      NeedsRevision(f) <==>
        |f.hallucinationsFound| > 0 || CriticalIssues(f.hallucinationCheck, f.timelinessCheck, f.valueCheck) > 0
        || ShortfallCount(f.checklist) >= 4
  {
    GradedNeedsRevision(ParsedFeedback(r));
  }

  // ---------------------------------------------------------------------------
  // _check_needs_revision and the routers

  /** Words that make a checklist item a key one. */
  const KeyItemWords: seq<string> := ["키워드", "실적", "뉴스", "이벤트"]

  predicate NamesWord(name: string, words: seq<string>) {
    |words| > 0 && (Contains(name, words[0]) || NamesWord(name, words[1..]))
  }

  /** A key checklist item that falls short. */
  predicate KeyFailure(item: ChecklistItem) {
    Contains(item.status, Shortfall) && NamesWord(Lower(item.itemName), KeyItemWords)
  }

  function KeyFailures(items: seq<ChecklistItem>): (n: nat)
    ensures n <= |items|
  {
    if |items| == 0 then 0 else KeyFailures(items[..|items| - 1]) + (if KeyFailure(items[|items| - 1]) then 1 else 0)
  }

  datatype Verdict = Verdict(needed: bool, reason: string)

  /** `_check_needs_revision`: the first reason that applies, in the source's order. */
  function CheckNeedsRevision(f: CriticFeedback): Verdict {
    if |f.hallucinationsFound| > 0 then
      Verdict(true, "환각 발견: " + NatStr(|f.hallucinationsFound|) + "개의 허위 정보가 발견되었습니다.")
    else if Failed(f.hallucinationCheck.status) then
      Verdict(true, "환각 검증 미흡: " + f.hallucinationCheck.explanation)
    else if Failed(f.timelinessCheck.status) then
      Verdict(true, "시의성 검증 미흡: " + f.timelinessCheck.explanation)
    else if f.valueCheck.status == SeriousShortfall then
      Verdict(true, "정보 가치 심각하게 미흡: " + f.valueCheck.explanation)
    else if f.overallQuality == Severe || f.overallQuality == Poor then
      Verdict(true, "전체 품질 미흡: " + f.overallQuality)
    else if KeyFailures(f.checklist) >= 2 then
      Verdict(true, "핵심 체크리스트 항목 " + NatStr(KeyFailures(f.checklist)) + "개 미흡")
    else Verdict(false, QualityMet)
  }

  /**
   * The graph's revision test is the feedback's own rule widened by one case,
   * two failing key checklist items; the reason reads "quality met" exactly
   * when no revision is needed.
   */
  lemma CheckNeedsRevisionRule(f: CriticFeedback)
    ensures CheckNeedsRevision(f).needed <==> NeedsRevision(f) || KeyFailures(f.checklist) >= 2
    ensures CheckNeedsRevision(f).needed <==> CheckNeedsRevision(f).reason != QualityMet
  {
    var v := CheckNeedsRevision(f);
    if v.needed {
      assert v.reason[0] != QualityMet[0];
    }
  }

  datatype Route = Revise | Critique | End

  /** `should_continue_revision`, the edge after the critic. */
  function ShouldContinueRevision(s: BriefingState): Route {
    if !Truthy(s.scriptDraft) || s.criticFeedback.None? || s.iterations > s.maxIterations then End
    else if CheckNeedsRevision(s.criticFeedback.value).needed then Revise
    else End
  }

  /** `should_iterate`, the edge after the revision writer. */
  function ShouldIterate(s: BriefingState): Route {
    if !Truthy(s.scriptRevised) || s.iterations >= s.maxIterations then End
    else if s.criticFeedback.Some?
            && (|s.criticFeedback.value.hallucinationsFound| > 0
                || Failed(s.criticFeedback.value.hallucinationCheck.status)
                || Failed(s.criticFeedback.value.timelinessCheck.status)) then Critique
    else End
  }

  /**
   * After the critic: revise exactly when there is a draft and feedback, the
   * iteration bound is not passed, and the revision test holds.
   */
  lemma ContinueRevisionRule(s: BriefingState)
    ensures ShouldContinueRevision(s) == Revise || ShouldContinueRevision(s) == End
    ensures ShouldContinueRevision(s) == Revise <==>
      Truthy(s.scriptDraft) && s.criticFeedback.Some? && s.iterations <= s.maxIterations
      && (NeedsRevision(s.criticFeedback.value) || KeyFailures(s.criticFeedback.value.checklist) >= 2)
  {
    if s.criticFeedback.Some? {
      CheckNeedsRevisionRule(s.criticFeedback.value);
    }
  }

  /**
   * After a revision: the critic runs again only below the iteration bound and
   * only for a hallucination or timeliness problem, each of which needs
   * revision by itself.
   */
  lemma IterateRule(s: BriefingState)
    ensures ShouldIterate(s) == Critique || ShouldIterate(s) == End
    ensures ShouldIterate(s) == Critique ==>
      Truthy(s.scriptRevised) && s.iterations < s.maxIterations
      && s.criticFeedback.Some? && NeedsRevision(s.criticFeedback.value)
  {
  }

  // ---------------------------------------------------------------------------
  // _extract_keywords_from_script

  /** The themes looked for: a pattern and the keyword it stands for. */
  const ThemePatterns: seq<(string, string)> := [
    ("AI", "AI"), ("인공지능", "AI"), ("반도체", "반도체"), ("금리", "금리"), ("연준", "연준"),
    ("Fed", "연준"), ("인플레이션", "인플레이션"), ("실적", "실적"), ("기술주", "기술주"),
    ("경기침체", "경기침체"), ("고용", "고용")]

  const DefaultKeyword := "시장 동향"

  /** The scan from `patterns` on with `keywords` found so far: new keywords are added, and it stops at three. */
  function ThemeScan(script: string, patterns: seq<(string, string)>, keywords: seq<string>): seq<string>
    decreases |patterns|
  {
    if |patterns| == 0 then keywords
    else
      var (pattern, keyword) := patterns[0];
      var found := if Contains(script, pattern) && keyword !in keywords then keywords + [keyword] else keywords;
      if |found| >= 3 then found else ThemeScan(script, patterns[1..], found)
  }

  /** `_extract_keywords_from_script` as a value. */
  function Keywords(script: string): seq<string> {
    var found := ThemeScan(script, ThemePatterns, []);
    if |found| == 0 then [DefaultKeyword] else found
  }

  method ExtractKeywords(script: string) returns (keywords: seq<string>)
    ensures keywords == Keywords(script)
  {
    keywords := [];
    var patterns := ThemePatterns;
    for i := 0 to |patterns|
      invariant ThemeScan(script, patterns, []) == ThemeScan(script, patterns[i..], keywords)
      invariant |keywords| < 3
    {
      assert patterns[i..][1..] == patterns[i + 1..];
      var (pattern, keyword) := patterns[i];
      if Contains(script, pattern) && keyword !in keywords {
        keywords := keywords + [keyword];
      }
      if |keywords| >= 3 {
        break;
      }
    }
    if |keywords| == 0 {
      keywords := [DefaultKeyword];
    }
  }

  /**
   * The scan keeps at most three keywords, none twice, each either one it
   * started with or the keyword of a pattern that occurs in the script.
   */
  lemma {:induction false} ThemeScanFound(script: string, patterns: seq<(string, string)>, keywords: seq<string>)
    requires |keywords| < 3 && SeqUtil.NoDuplicates(keywords)
    ensures var r := ThemeScan(script, patterns, keywords);
      |r| <= 3 && SeqUtil.NoDuplicates(r)
      && forall k :: k in r ==> k in keywords || exists i :: 0 <= i < |patterns| && patterns[i].1 == k && Contains(script, patterns[i].0)
    decreases |patterns|
  {
    if |patterns| > 0 {
      var (pattern, keyword) := patterns[0];
      var found := if Contains(script, pattern) && keyword !in keywords then keywords + [keyword] else keywords;
      assert SeqUtil.NoDuplicates(found) by {
        if found != keywords {
          forall i, j | 0 <= i < j < |found| ensures found[i] != found[j] {
            if j == |keywords| {
              assert found[i] in keywords;
            }
          }
        }
      }
      if |found| < 3 {
        ThemeScanFound(script, patterns[1..], found);
        var r := ThemeScan(script, patterns, keywords);
        forall k | k in r && k !in keywords
          ensures exists i :: 0 <= i < |patterns| && patterns[i].1 == k && Contains(script, patterns[i].0)
        {
          if k !in found {
            var i :| 0 <= i < |patterns[1..]| && patterns[1..][i].1 == k && Contains(script, patterns[1..][i].0);
            assert patterns[i + 1] == patterns[1..][i];
          } else {
            assert patterns[0].1 == k && Contains(script, patterns[0].0);
          }
        }
      } else {
        assert patterns[0].1 == keyword;
      }
    }
  }

  /** One to three distinct keywords: themes found in the script, or the single default. */
  lemma KeywordsShape(script: string)
    ensures var ks := Keywords(script);
      1 <= |ks| <= 3 && SeqUtil.NoDuplicates(ks)
      && (ks == [DefaultKeyword]
          || forall k :: k in ks ==> exists i :: 0 <= i < |ThemePatterns| && ThemePatterns[i].1 == k
                                                 && Contains(script, ThemePatterns[i].0))
  {
    ThemeScanFound(script, ThemePatterns, []);
  }


  // ---------------------------------------------------------------------------
  // call_llm_with_tools

  /** A tool call the model asked for; `None` arguments stand for JSON that did not parse. */
  datatype ToolCall = ToolCall(id: string, name: string, arguments: Option<BT.Args>)

  /** The arguments passed on: those parsed, or an empty dictionary. */
  function ArgsOf(c: ToolCall): BT.Args {
    if c.arguments.Some? then c.arguments.value else map[]
  }

  /** The node whose prompts open a conversation. */
  datatype Node = WriterPrompt | CriticPrompt | RevisionPrompt

  /**
   * The conversation sent to the model. The system prompt and the user
   * message are templates over the node and the state, so the opening
   * message stands for both.
   */
  datatype Message =
    | Opening(node: Node, state: BriefingState)
    | Assistant(calls: seq<ToolCall>, content: string)
    | ToolReply(callId: string, content: string)

  /** What one model call gives back: tool calls and content, or a raised error's text. */
  datatype LlmTurn = Turn(calls: seq<ToolCall>, content: string) | TurnRaised(message: string)

  /** The model as an oracle over the conversation so far and whether tools are offered. */
  type Llm = (seq<Message>, bool) -> LlmTurn

  /** The world the graph runs in: the model, the loaded sources, the clock and parsers, and `json.dumps`. */
  datatype World = World(llm: Llm, sources: BT.Sources, env: BT.Environment, dumps: BT.Record -> string)

  /** The references a result carries; a failed call has none. */
  function ResultRefs(r: BT.ToolResult): seq<Reference> {
    if r.Found? then r.references else []
  }

  /** The replies to one round of tool calls, the references they return, and those the executor logs. */
  datatype Answers = Answers(replies: seq<Message>, refs: seq<Reference>, created: seq<Reference>)

  /** The executor's tools as a value: a name and arguments to the outcome of the call. */
  type Tools = (string, BT.Args) -> BT.Outcome

  function ToolsOf(src: BT.Sources, bd: string, env: BT.Environment): Tools {
    (name: string, args: BT.Args) => BT.Respond(src, bd, env, name, args)
  }

  /** `tools` answers each call as an executor over these sources, date and runtime does. */
  ghost predicate Serves(tools: Tools, src: BT.Sources, bd: string, env: BT.Environment) {
    forall name, args {:trigger BT.Respond(src, bd, env, name, args)} ::
      tools(name, args) == BT.Respond(src, bd, env, name, args)
  }

  lemma ToolsOfServes(src: BT.Sources, bd: string, env: BT.Environment)
    ensures Serves(ToolsOf(src, bd, env), src, bd, env)
  {
  }

  /** One round of tool calls answered in order, each with the text of its result. */
  function AnswerCalls(calls: seq<ToolCall>, tools: Tools, dumps: BT.Record -> string): (a: Answers)
    ensures |a.replies| == |calls|
  {
    if |calls| == 0 then Answers([], [], [])
    else
      var a := AnswerCalls(calls[..|calls| - 1], tools, dumps);
      var c := calls[|calls| - 1];
      var o := tools(c.name, ArgsOf(c));
      Answers(a.replies + [ToolReply(c.id, BT.ToolResultText(o.result, dumps))],
              a.refs + ResultRefs(o.result), a.created + o.created)
  }

  /** Each call of a round is answered, in order, by a reply carrying its id. */
  lemma {:induction false} RepliesMatchCalls(calls: seq<ToolCall>, tools: Tools, dumps: BT.Record -> string)
    ensures var a := AnswerCalls(calls, tools, dumps);
      forall i :: 0 <= i < |calls| ==> a.replies[i].ToolReply? && a.replies[i].callId == calls[i].id
  {
    if |calls| > 0 {
      RepliesMatchCalls(calls[..|calls| - 1], tools, dumps);
    }
  }

  /** The inner loop over one round's tool calls. */
  method AnswerToolCalls(executor: BT.DataToolExecutor, calls: seq<ToolCall>, dumps: BT.Record -> string,
                         ghost tools: Tools)
    returns (replies: seq<Message>, refs: seq<Reference>)
    requires Serves(tools, executor.sources, executor.briefingDate, executor.env)
    modifies executor
    ensures var a := AnswerCalls(calls, tools, dumps);
      replies == a.replies && refs == a.refs
      && executor.referencesUsed == old(executor.referencesUsed) + a.created
  {
    ghost var log0 := executor.referencesUsed;
    replies, refs := [], [];
    for i := 0 to |calls|
      invariant var a := AnswerCalls(calls[..i], tools, dumps);
        replies == a.replies && refs == a.refs && executor.referencesUsed == log0 + a.created
    {
      assert calls[..i + 1][..i] == calls[..i];
      var c := calls[i];
      var arguments := if c.arguments.Some? then c.arguments.value else map[];
      var result := executor.ExecuteTool(c.name, arguments);
      ghost var o := tools(c.name, arguments);
      assert result == o.result;
      SeqUtil.AppendAssoc(log0, AnswerCalls(calls[..i], tools, dumps).created, o.created);
      var text := BT.FormatToolResultForLlm(result, dumps);
      replies := replies + [ToolReply(c.id, text)];
      refs := refs + (if result.Found? then result.references else []);
    }
    assert calls[..|calls|] == calls;
  }

  /** How a conversation ended: the model's final content, or the text of an error it raised. */
  datatype Reply = Answered(text: string) | LlmRaised(message: string)

  /**
   * A whole conversation: its reply, the references the tool results
   * returned, those the executor logged, the rounds of tool calls, and
   * whether the round limit forced a final call without tools.
   */
  datatype Run = Run(reply: Reply, refs: seq<Reference>, created: seq<Reference>, rounds: nat, forced: bool)

  /** `run` after `rounds` earlier rounds that returned `refs` and logged `created`. */
  function After(run: Run, refs: seq<Reference>, created: seq<Reference>, rounds: nat): Run {
    Run(run.reply, refs + run.refs, created + run.created, rounds + run.rounds, run.forced)
  }

  /**
   * The conversation from `messages` on with `left` rounds of tool calls
   * still allowed: while rounds are left, a turn without tool calls ends it
   * and a turn with some is answered and continued; with none left, one more
   * call without tools ends it.
   */
  function Converse(llm: Llm, tools: Tools, dumps: BT.Record -> string, messages: seq<Message>, left: nat): Run
    decreases left
  {
    if left == 0 then
      match llm(messages, false)
      case TurnRaised(m) => Run(LlmRaised(m), [], [], 0, true)
      case Turn(_, content) => Run(Answered(content), [], [], 0, true)
    else
      match llm(messages, true)
      case TurnRaised(m) => Run(LlmRaised(m), [], [], 0, false)
      case Turn(calls, content) =>
        if |calls| == 0 then Run(Answered(content), [], [], 0, false)
        else
          var a := AnswerCalls(calls, tools, dumps);
          After(Converse(llm, tools, dumps, messages + [Assistant(calls, content)] + a.replies, left - 1),
                a.refs, a.created, 1)
  }

  /** The rounds `while tool_call_count < max_tool_calls` allows. */
  function Rounds(maxToolCalls: int): nat {
    if maxToolCalls > 0 then maxToolCalls else 0
  }

  /** Nothing gathered before a run leaves it as it is. */
  lemma AfterNothing(run: Run)
    ensures After(run, [], [], 0) == run
  {
    assert [] + run.refs == run.refs && [] + run.created == run.created;
  }

  lemma AfterAfter(run: Run, refs1: seq<Reference>, created1: seq<Reference>, rounds1: nat,
                   refs2: seq<Reference>, created2: seq<Reference>, rounds2: nat)
    ensures After(After(run, refs2, created2, rounds2), refs1, created1, rounds1)
         == After(run, refs1 + refs2, created1 + created2, rounds1 + rounds2)
  {
    SeqUtil.AppendAssoc(refs1, refs2, run.refs);
    SeqUtil.AppendAssoc(created1, created2, run.created);
  }

  /**
   * `call_llm_with_tools`: the conversation with the executor's data, the
   * references its tool results returned, and every reference the executor
   * logged on the way.
   */
  method CallLlmWithTools(llm: Llm, executor: BT.DataToolExecutor, dumps: BT.Record -> string,
                          opening: Message, maxToolCalls: int, ghost tools: Tools)
    returns (reply: Reply, references: seq<Reference>)
    requires Serves(tools, executor.sources, executor.briefingDate, executor.env)
    modifies executor
    ensures var run := Converse(llm, tools, dumps, [opening], Rounds(maxToolCalls));
      reply == run.reply && references == run.refs
      && executor.referencesUsed == old(executor.referencesUsed) + run.created
  {
    ghost var log0 := executor.referencesUsed;
    ghost var whole := Converse(llm, tools, dumps, [opening], Rounds(maxToolCalls));
    ghost var created: seq<Reference> := [];
    var messages := [opening];
    references := [];
    var count := 0;
    ghost var left := Rounds(maxToolCalls);
    AfterNothing(whole);
    while count < maxToolCalls
      invariant 0 <= count <= Rounds(maxToolCalls) && left == Rounds(maxToolCalls) - count
      invariant whole == After(Converse(llm, tools, dumps, messages, left), references, created, count)
      invariant executor.referencesUsed == log0 + created
      decreases maxToolCalls - count
    {
      var ended, next, refs, made := ToolRound(llm, executor, dumps, messages, tools, left,
                                               references, created, count, whole, log0);
      if ended.Some? {
        reply := ended.value;
        return;
      }
      messages, references, created, count, left := next, refs, made, count + 1, left - 1;
    }
    reply := FinalCall(llm, dumps, messages, tools, references, created, count, whole);
  }

  /** The call after the loop: the model is asked once more, without tools, and its answer ends the run. */
  method FinalCall(llm: Llm, dumps: BT.Record -> string, messages: seq<Message>, ghost tools: Tools,
                   ghost refs: seq<Reference>, ghost created: seq<Reference>, ghost count: nat, ghost whole: Run)
    returns (reply: Reply)
    requires whole == After(Converse(llm, tools, dumps, messages, 0), refs, created, count)
    ensures reply == whole.reply && whole.refs == refs && whole.created == created
  {
    ConverseLast(llm, tools, dumps, messages, 0, refs, created, count, whole);
    var last := llm(messages, false);
    reply := if last.TurnRaised? then LlmRaised(last.message) else Answered(last.content);
  }

  /**
   * One pass of the `while` loop of `call_llm_with_tools`: the model is
   * called with tools; a raised error or a turn without tool calls ends
   * the conversation with its reply, and otherwise the calls are answered
   * and the conversation goes on from the longer message list.
   */
  method ToolRound(llm: Llm, executor: BT.DataToolExecutor, dumps: BT.Record -> string, messages: seq<Message>,
                   ghost tools: Tools, ghost left: nat, refs0: seq<Reference>, ghost created: seq<Reference>, ghost count: nat,
                   ghost whole: Run, ghost log0: seq<Reference>)
    returns (ended: Option<Reply>, next: seq<Message>, refs: seq<Reference>, ghost made: seq<Reference>)
    requires Serves(tools, executor.sources, executor.briefingDate, executor.env)
    requires left > 0 && whole == After(Converse(llm, tools, dumps, messages, left), refs0, created, count)
    requires executor.referencesUsed == log0 + created
    modifies executor
    ensures ended.Some? ==> executor.referencesUsed == log0 + created && whole.reply == ended.value
                            && whole.refs == refs0 && whole.created == created
    ensures ended.None? ==>
      executor.referencesUsed == log0 + made
      && whole == After(Converse(llm, tools, dumps, next, left - 1), refs, made, count + 1)
  {
    var turn := llm(messages, true);
    RoundStep(llm, tools, dumps, messages, left, refs0, created, count, whole);
    if turn.TurnRaised? {
      return Some(LlmRaised(turn.message)), messages, refs0, created;
    }
    if |turn.calls| == 0 {
      return Some(Answered(turn.content)), messages, refs0, created;
    }
    var replies, got := AnswerToolCalls(executor, turn.calls, dumps, tools);
    ghost var logged := AnswerCalls(turn.calls, tools, dumps).created;
    SeqUtil.AppendAssoc(log0, created, logged);
    next := messages + [Assistant(turn.calls, turn.content)] + replies;
    refs, made := refs0 + got, created + logged;
    ended := None;
  }

  /**
   * One round of the conversation while rounds are left, after `count`
   * earlier rounds that returned `refs` and logged `created`.
   */
  lemma RoundStep(llm: Llm, tools: Tools, dumps: BT.Record -> string, messages: seq<Message>, left: nat,
                  refs: seq<Reference>, created: seq<Reference>, count: nat, whole: Run)
    requires left > 0 && whole == After(Converse(llm, tools, dumps, messages, left), refs, created, count)
    ensures var turn := llm(messages, true);
      (turn.TurnRaised? ==> whole.reply == LlmRaised(turn.message) && whole.refs == refs && whole.created == created)
      && (turn.Turn? && |turn.calls| == 0 ==> whole.reply == Answered(turn.content) && whole.refs == refs && whole.created == created)
      && (turn.Turn? && |turn.calls| > 0 ==>
            var a := AnswerCalls(turn.calls, tools, dumps);
            whole == After(Converse(llm, tools, dumps, messages + [Assistant(turn.calls, turn.content)] + a.replies, left - 1),
                           refs + a.refs, created + a.created, count + 1))
  {
    var turn := llm(messages, true);
    if turn.TurnRaised? || |turn.calls| == 0 {
      assert refs + [] == refs && created + [] == created;
    } else {
      var a := AnswerCalls(turn.calls, tools, dumps);
      AfterAfter(Converse(llm, tools, dumps, messages + [Assistant(turn.calls, turn.content)] + a.replies, left - 1),
                 refs, created, count, a.refs, a.created, 1);
    }
  }

  /** With no rounds left, one call without tools ends the conversation. */
  lemma ConverseLast(llm: Llm, tools: Tools, dumps: BT.Record -> string, messages: seq<Message>, left: nat,
                     refs: seq<Reference>, created: seq<Reference>, count: nat, whole: Run)
    requires left == 0 && whole == After(Converse(llm, tools, dumps, messages, left), refs, created, count)
    ensures var last := llm(messages, false);
      whole.reply == (if last.TurnRaised? then LlmRaised(last.message) else Answered(last.content))
      && whole.refs == refs && whole.created == created
  {
    assert refs + [] == refs && created + [] == created;
  }

  /** Every reference a tool result returns was logged by the executor. */
  ghost predicate LogsReturned(tools: Tools) {
    forall name, args :: tools(name, args).result.Found? ==>
      forall r :: r in tools(name, args).result.references ==> r in tools(name, args).created
  }

  lemma ExecutorLogsReturned(src: BT.Sources, bd: string, env: BT.Environment)
    ensures LogsReturned(ToolsOf(src, bd, env))
  {
    forall name, args
      ensures var o := ToolsOf(src, bd, env)(name, args); o.result.Found? ==> forall r :: r in o.result.references ==> r in o.created
    {
      BT.ReturnedAreLogged(src, bd, env, name, args);
    }
  }

  /** Every reference a round's results return was logged. */
  lemma {:induction false} AnswersLogged(calls: seq<ToolCall>, tools: Tools, dumps: BT.Record -> string)
    requires LogsReturned(tools)
    ensures forall r :: r in AnswerCalls(calls, tools, dumps).refs ==> r in AnswerCalls(calls, tools, dumps).created
  {
    if |calls| > 0 {
      var init := AnswerCalls(calls[..|calls| - 1], tools, dumps);
      AnswersLogged(calls[..|calls| - 1], tools, dumps);
      var c := calls[|calls| - 1];
      var o := tools(c.name, ArgsOf(c));
      var a := AnswerCalls(calls, tools, dumps);
      assert a.refs == init.refs + ResultRefs(o.result) && a.created == init.created + o.created;
      forall r | r in a.refs ensures r in a.created {
        if r in init.refs {
          assert r in init.created;
        } else {
          assert o.result.Found? && r in o.result.references;
          assert r in o.created;
        }
      }
    }
  }

  /**
   * A conversation uses at most the rounds it is allowed, is forced to a
   * final call exactly when it uses them all, and returns only references
   * the executor logged.
   */
  lemma {:induction false} ConverseBounds(llm: Llm, tools: Tools, dumps: BT.Record -> string,
                                          messages: seq<Message>, left: nat)
    requires LogsReturned(tools)
    ensures var run := Converse(llm, tools, dumps, messages, left);
      run.rounds <= left && (run.forced <==> run.rounds == left)
    ensures forall r :: r in Converse(llm, tools, dumps, messages, left).refs
                   ==> r in Converse(llm, tools, dumps, messages, left).created
    decreases left
  {
    if left > 0 {
      match llm(messages, true)
      case TurnRaised(_) =>
      case Turn(calls, content) =>
        if |calls| > 0 {
          var a := AnswerCalls(calls, tools, dumps);
          ConverseBounds(llm, tools, dumps, messages + [Assistant(calls, content)] + a.replies, left - 1);
          AnswersLogged(calls, tools, dumps);
        }
    }
  }

  // ---------------------------------------------------------------------------
  // The nodes

  /** The round limit every node passes to the model loop. */
  const MaxToolCalls := 20

  const NoDraftError := "No script draft available for critique"
  const MissingDataError := "Missing data for revision"

  /** The date the executor works with: the state's, or today when it is unset or empty. */
  function ExecutorDate(d: Option<string>, env: BT.Environment): string {
    if Truthy(d) then d.value else env.today
  }

  /** The conversation a node opens, with the executor set up from the state. */
  function NodeRun(node: Node, s: BriefingState, w: World): Run {
    Converse(w.llm, ToolsOf(w.sources, ExecutorDate(s.briefingDate, w.env), w.env), w.dumps,
             [Opening(node, s)], Rounds(MaxToolCalls))
  }

  /**
   * `load_sources_node`'s date: the configured one, else the market summary's
   * `date` field, else the current date.
   */
  function LoadedBriefingDate(configured: Option<string>, summary: Option<BT.MarketSummary>, now: string): (d: string)
    ensures Truthy(configured) ==> d == configured.value
    ensures !Truthy(configured) && (summary.None? || "date" !in summary.value.fields) ==> d == now
  {
    if Truthy(configured) then configured.value
    else if summary.Some? && "date" in summary.value.fields then summary.value.fields["date"]
    else now
  }

  /** `script_writer_with_tools_node`: the draft, its keywords and its references, or the error. */
  function ScriptWriterStep(s: BriefingState, w: World): (s': BriefingState)
    ensures s'.iterations == s.iterations && s'.maxIterations == s.maxIterations
    ensures s'.criticFeedback == s.criticFeedback
  {
    var run := NodeRun(WriterPrompt, s, w);
    match run.reply
    case Answered(text) => s.(scriptDraft := Some(text), keywords := Keywords(text), references := run.refs)
    case LlmRaised(m) => s.(scriptDraft := None, errorMessage := Some(m))
  }

  /**
   * `critic_node`: feedback parsed from the report and one more iteration,
   * or no feedback and an error; only an answered critique counts.
   */
  function CriticStep(s: BriefingState, w: World): (s': BriefingState)
    ensures s'.maxIterations == s.maxIterations && s'.scriptDraft == s.scriptDraft
    ensures s'.references == s.references
    ensures s'.criticFeedback.Some? ==> s'.iterations == s.iterations + 1 && Truthy(s.scriptDraft)
    ensures s'.criticFeedback.None? ==> s'.iterations == s.iterations && s'.errorMessage.Some?
  {
    if !Truthy(s.scriptDraft) then s.(criticFeedback := None, errorMessage := Some(NoDraftError))
    else
      match NodeRun(CriticPrompt, s, w).reply
      case Answered(text) => s.(criticFeedback := Some(ParsedFeedback(text)), iterations := s.iterations + 1)
      case LlmRaised(m) => s.(criticFeedback := None, errorMessage := Some(m))
  }

  /**
   * `revision_writer_node`: the revised script becomes the draft too and its
   * references are added after the earlier ones; without a draft and
   * feedback, or on an error, the draft is kept as the revision.
   */
  function RevisionWriterStep(s: BriefingState, w: World): (s': BriefingState)
    ensures s'.iterations == s.iterations && s'.maxIterations == s.maxIterations
    ensures s'.criticFeedback == s.criticFeedback
    ensures s.references <= s'.references
  {
    if !Truthy(s.scriptDraft) || s.criticFeedback.None? then
      s.(scriptRevised := s.scriptDraft, errorMessage := Some(MissingDataError))
    else
      var run := NodeRun(RevisionPrompt, s, w);
      match run.reply
      case Answered(text) =>
        s.(scriptRevised := Some(text), scriptDraft := Some(text), references := s.references + run.refs)
      case LlmRaised(m) => s.(scriptRevised := s.scriptDraft, errorMessage := Some(m))
  }

  method ScriptWriterNode(s: BriefingState, w: World) returns (s': BriefingState)
    ensures s' == ScriptWriterStep(s, w)
  {
    var executor := new BT.DataToolExecutor(w.sources, s.briefingDate, w.env);
    ToolsOfServes(executor.sources, executor.briefingDate, executor.env);
    var reply, references := CallLlmWithTools(w.llm, executor, w.dumps, Opening(WriterPrompt, s), MaxToolCalls,
                                              ToolsOf(executor.sources, executor.briefingDate, executor.env));
    match reply
    case Answered(text) =>
      var keywords := ExtractKeywords(text);
      s' := s.(scriptDraft := Some(text), keywords := keywords, references := references);
    case LlmRaised(m) =>
      s' := s.(scriptDraft := None, errorMessage := Some(m));
  }

  method CriticNode(s: BriefingState, w: World) returns (s': BriefingState)
    ensures s' == CriticStep(s, w)
  {
    if !Truthy(s.scriptDraft) {
      return s.(criticFeedback := None, errorMessage := Some(NoDraftError));
    }
    var executor := new BT.DataToolExecutor(w.sources, s.briefingDate, w.env);
    ToolsOfServes(executor.sources, executor.briefingDate, executor.env);
    var reply, _ := CallLlmWithTools(w.llm, executor, w.dumps, Opening(CriticPrompt, s), MaxToolCalls,
                                     ToolsOf(executor.sources, executor.briefingDate, executor.env));
    match reply
    case Answered(text) =>
      var feedback := ParseCriticResponse(text);
      s' := s.(criticFeedback := Some(feedback), iterations := s.iterations + 1);
    case LlmRaised(m) =>
      s' := s.(criticFeedback := None, errorMessage := Some(m));
  }

  method RevisionWriterNode(s: BriefingState, w: World) returns (s': BriefingState)
    ensures s' == RevisionWriterStep(s, w)
  {
    if !Truthy(s.scriptDraft) || s.criticFeedback.None? {
      return s.(scriptRevised := s.scriptDraft, errorMessage := Some(MissingDataError));
    }
    var executor := new BT.DataToolExecutor(w.sources, s.briefingDate, w.env);
    ToolsOfServes(executor.sources, executor.briefingDate, executor.env);
    var reply, references := CallLlmWithTools(w.llm, executor, w.dumps, Opening(RevisionPrompt, s), MaxToolCalls,
                                              ToolsOf(executor.sources, executor.briefingDate, executor.env));
    match reply
    case Answered(text) =>
      s' := s.(scriptRevised := Some(text), scriptDraft := Some(text), references := s.references + references);
    case LlmRaised(m) =>
      s' := s.(scriptRevised := s.scriptDraft, errorMessage := Some(m));
  }

  // ---------------------------------------------------------------------------
  // The workflow: script writer, critic, then revision and critique while the edges say so

  /** The final state with the number of critic and revision-writer runs. */
  datatype GraphRun = GraphRun(state: BriefingState, critiques: nat, revisions: nat)

  /** The measure the revision loop spends: the iterations left while it is routed to revise. */
  function RevisionBudget(s: BriefingState): nat {
    if ShouldContinueRevision(s) == Revise then s.maxIterations - s.iterations + 1 else 0
  }

  /** The graph from a critiqued state on. */
  function Revising(s: BriefingState, w: World): GraphRun
    decreases RevisionBudget(s)
  {
    if ShouldContinueRevision(s) != Revise then GraphRun(s, 0, 0)
    else
      var r := RevisionWriterStep(s, w);
      if ShouldIterate(r) == End then GraphRun(r, 0, 1)
      else
        var c := CriticStep(r, w);
        var rest := Revising(c, w);
        GraphRun(rest.state, rest.critiques + 1, rest.revisions + 1)
  }

  /** The compiled graph run from the loaded state. */
  function Workflow(s: BriefingState, w: World): GraphRun {
    var rest := Revising(CriticStep(ScriptWriterStep(s, w), w), w);
    GraphRun(rest.state, rest.critiques + 1, rest.revisions)
  }

  /** `rest` after `critiques` critic runs and `revisions` revisions. */
  function Counted(rest: GraphRun, critiques: nat, revisions: nat): GraphRun {
    GraphRun(rest.state, rest.critiques + critiques, rest.revisions + revisions)
  }

  /** One revision from a state the router sends back to the writer. */
  lemma RevisingStep(s: BriefingState, w: World)
    requires ShouldContinueRevision(s) == Revise
    ensures var r := RevisionWriterStep(s, w);
      ShouldIterate(r) == End ==> Revising(s, w) == GraphRun(r, 0, 1)
    ensures var r := RevisionWriterStep(s, w);
      ShouldIterate(r) != End ==> (Revising(s, w) == Counted(Revising(CriticStep(r, w), w), 1, 1)
        && RevisionBudget(CriticStep(r, w)) < RevisionBudget(s))
  {
  }

  /** The graph's walk over its nodes, edge by edge. */
  method RunGraph(s0: BriefingState, w: World) returns (run: GraphRun)
    ensures run == Workflow(s0, w)
  {
    var s := ScriptWriterNode(s0, w);
    s := CriticNode(s, w);
    var critiques, revisions := 1, 0;
    var done := ShouldContinueRevision(s) != Revise;
    while !done
      invariant !done ==> ShouldContinueRevision(s) == Revise
      invariant Workflow(s0, w) == Counted(if done then GraphRun(s, 0, 0) else Revising(s, w), critiques, revisions)
      decreases if done then 0 else RevisionBudget(s)
    {
      RevisingStep(s, w);
      s := RevisionWriterNode(s, w);
      revisions := revisions + 1;
      if ShouldIterate(s) == End {
        done := true;
      } else {
        s := CriticNode(s, w);
        critiques := critiques + 1;
        done := ShouldContinueRevision(s) != Revise;
      }
    }
    run := GraphRun(s, critiques, revisions);
  }

  /**
   * From a critiqued state the loop revises at most once per iteration left
   * (counting the current one), critiques once fewer than it revises, never
   * lets the iteration count pass the bound, and keeps every reference it
   * had.
   */
  lemma {:induction false} RevisingBounds(s: BriefingState, w: World)
    ensures var g := Revising(s, w);
      g.critiques <= g.revisions
      && (g.revisions == 0 || g.revisions <= s.maxIterations - s.iterations + 1)
      && g.state.iterations <= (if s.iterations < s.maxIterations then s.maxIterations else s.iterations)
      && g.state.maxIterations == s.maxIterations
      && s.references <= g.state.references
    decreases RevisionBudget(s)
  {
    if ShouldContinueRevision(s) == Revise {
      var r := RevisionWriterStep(s, w);
      if ShouldIterate(r) != End {
        var c := CriticStep(r, w);
        RevisingBounds(c, w);
      }
    }
  }

  /**
   * A whole run critiques at least once and at most once more than it
   * revises, revises at most `max_iterations` minus the starting count
   * times, and ends with the iteration count at most one past the start or
   * at the bound.
   */
  lemma WorkflowBounds(s: BriefingState, w: World)
    ensures var g := Workflow(s, w);
      1 <= g.critiques <= g.revisions + 1
      && (g.revisions == 0 || g.revisions <= s.maxIterations - s.iterations)
      && g.state.iterations <= (if s.iterations + 1 < s.maxIterations then s.maxIterations else s.iterations + 1)
      && g.state.maxIterations == s.maxIterations
  {
    var c := CriticStep(ScriptWriterStep(s, w), w);
    RevisingBounds(c, w);
    if c.criticFeedback.None? {
      assert ShouldContinueRevision(c) == End;
    }
  }
}
