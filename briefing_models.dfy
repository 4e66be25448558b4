/**
 * The records of the closing market briefing pipeline
 * (closing_briefing/models.py): references and their citation tags, the
 * critic's feedback with its revision rule, the graph state's iteration
 * fields, and the run configuration.
 */
module BriefingModels {
  import opened Wrappers
  import opened PyStr

  /** A piece of source data the briefing quotes. */
  datatype Reference = Reference(
    sourceType: string,
    sourceFile: string,
    quote: string,
    provider: Option<string>,
    date: Option<string>)

  /** The fixed part of a citation tag, up to and including the closing quote. */
  function CitationHead(ref: Reference): string {
    "[REF: " + ref.sourceType + " | \"" + ref.quote + "\""
  }

  /** Python truthiness of an optional string: present and non-empty. */
  predicate Truthy(s: Option<string>) {
    s.Some? && s.value != ""
  }

  /**
   * `Reference.to_citation_tag`: the head, the provider after " - " only
   * when it is non-empty, and a closing bracket.
   */
  function CitationTag(ref: Reference): (tag: string)
    ensures |tag| > |CitationHead(ref)|
    ensures StartsWith(tag, CitationHead(ref)) && EndsWith(tag, "]")
    ensures Truthy(ref.provider) ==>
      tag[|CitationHead(ref)|..|tag| - 1] == " - " + ref.provider.value
    ensures !Truthy(ref.provider) ==> |tag| == |CitationHead(ref)| + 1
  {
    var head := CitationHead(ref);
    var tail := if Truthy(ref.provider) then " - " + ref.provider.value else "";
    var tag := head + tail + "]";
    assert tag[..|head|] == head;
    assert tag[|head|..|tag| - 1] == tail;
    tag
  }

  /** Two references with different providers (one of them set) get different tags. */
  lemma CitationTagShowsProvider(a: Reference, b: Reference)
    requires a.sourceType == b.sourceType && a.quote == b.quote
    requires Truthy(a.provider) && a.provider != b.provider
    ensures CitationTag(a) != CitationTag(b)
  {
    var ta, tb := CitationTag(a), CitationTag(b);
    var n := |CitationHead(a)|;
    if Truthy(b.provider) {
      var pa, pb := " - " + a.provider.value, " - " + b.provider.value;
      assert pa[3..] == a.provider.value && pb[3..] == b.provider.value;
      assert pa != pb;
      assert ta[n..|ta| - 1] == pa && tb[n..|tb| - 1] == pb;
    } else {
      assert |ta| > n + 1 == |tb|;
    }
  }

  // The checklist statuses the critic writes.
  const Met := "충족"
  const Shortfall := "미흡"
  const SeriousShortfall := "심각한 미흡"

  // The overall quality grades, best first.
  const Excellent := "우수"
  const Good := "양호"
  const Fair := "보통"
  const Poor := "미흡"
  const Severe := "심각"

  datatype ChecklistItem = ChecklistItem(itemName: string, status: string, explanation: string)

  datatype HallucinationItem = HallucinationItem(fabricatedContent: string, explanation: string)

  /** The name and default of `source_citation_check` when the critic omits it. */
  const CitationItemName := "4. 출처 명시(Source Citation) 검증"
  const UnparsedExplanation := "검증 결과를 파싱할 수 없습니다."

  function DefaultCitationCheck(): ChecklistItem {
    ChecklistItem(CitationItemName, Met, UnparsedExplanation)
  }

  datatype CriticFeedback = CriticFeedback(
    summaryEvaluation: string,
    hallucinationCheck: ChecklistItem,
    timelinessCheck: ChecklistItem,
    valueCheck: ChecklistItem,
    sourceCitationCheck: ChecklistItem,
    hallucinationsFound: seq<HallucinationItem>,
    checklist: seq<ChecklistItem>,
    specificSuggestions: seq<string>,
    overallQuality: string)

  /** A status that fails a critical check: either kind of shortfall. */
  predicate Failed(status: string) {
    status == Shortfall || status == SeriousShortfall
  }

  /** `CriticFeedback.needs_revision` */
  predicate NeedsRevision(f: CriticFeedback) {
    |f.hallucinationsFound| > 0
    || Failed(f.hallucinationCheck.status)
    || Failed(f.timelinessCheck.status)
    || f.valueCheck.status == SeriousShortfall
    || f.overallQuality == Severe || f.overallQuality == Poor
  }

  const QualityMet := "품질 기준 충족"

  /**
   * The reasons `revision_reason` lists, in its fixed order; exactly the
   * feedback that needs revision has one.
   */
  function ReasonList(f: CriticFeedback): (reasons: seq<string>)
    ensures |reasons| > 0 <==> NeedsRevision(f)
    ensures forall i :: 0 <= i < |reasons| ==> |reasons[i]| > 0 && reasons[i][0] != QualityMet[0]
  {
    (if |f.hallucinationsFound| > 0 then ["환각 " + NatStr(|f.hallucinationsFound|) + "개 발견"] else [])
    + (if Failed(f.hallucinationCheck.status) then ["환각 검증 실패"] else [])
    + (if Failed(f.timelinessCheck.status) then ["시의성 검증 실패"] else [])
    + (if f.valueCheck.status == SeriousShortfall then ["정보 가치 심각히 미흡"] else [])
    + (if f.overallQuality == Severe || f.overallQuality == Poor then ["전체 품질: " + f.overallQuality] else [])
  }

  /** `CriticFeedback.revision_reason` */
  function RevisionReason(f: CriticFeedback): string {
    var reasons := ReasonList(f);
    if |reasons| > 0 then Join(", ", reasons) else QualityMet
  }

  /**
   * The "quality criteria met" text comes back exactly when no revision is
   * needed; otherwise the text starts with the first triggered reason.
   */
  lemma RevisionReasonIff(f: CriticFeedback)
    ensures RevisionReason(f) == QualityMet <==> !NeedsRevision(f)
    ensures NeedsRevision(f) ==> StartsWith(RevisionReason(f), ReasonList(f)[0])
  {
    var reasons := ReasonList(f);
    if |reasons| > 0 {
      JoinStartsWithFirst(", ", reasons);
      assert RevisionReason(f)[0] == reasons[0][0];
    }
  }

  /** The graph state fields the control loop reads and writes. */
  datatype BriefingState = BriefingState(
    keywords: seq<string>,
    scriptDraft: Option<string>,
    criticFeedback: Option<CriticFeedback>,
    scriptRevised: Option<string>,
    references: seq<Reference>,
    iterations: int,
    maxIterations: int,
    briefingDate: Option<string>,
    errorMessage: Option<string>)

  /** `ClosingBriefingState()` with every field at its default. */
  function InitialState(): (s: BriefingState)
    ensures s.iterations == 0 && s.maxIterations == 1
    ensures s.scriptDraft == None && s.criticFeedback == None && s.scriptRevised == None
    ensures s.references == [] && s.keywords == []
  {
    BriefingState([], None, None, None, [], 0, 1, None, None)
  }

  datatype BriefingConfig = BriefingConfig(
    sourcePath: string,
    maxIterations: int,
    briefingDate: Option<string>,
    outputPath: Option<string>)

  /** `BriefingConfig(...)`: validation rejects a bound outside 1..10. */
  function NewBriefingConfig(sourcePath: string, maxIterations: int, briefingDate: Option<string>,
                             outputPath: Option<string>): (r: Option<BriefingConfig>)
    ensures r.Some? <==> 1 <= maxIterations <= 10
    ensures r.Some? ==> r.value.maxIterations == maxIterations && r.value.sourcePath == sourcePath
  {
    if 1 <= maxIterations <= 10 then Some(BriefingConfig(sourcePath, maxIterations, briefingDate, outputPath))
    else None
  }
}
