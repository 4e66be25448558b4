/**
 * `ValidationAgent` of validation_agent/base.py: the registries of source
 * tools and validators, tool-call dispatch, single-claim validation, and the
 * merge of several validators' results into one.
 *
 * A source tool is one of the tool classes, wrapped in `AnyTool`.  A validator
 * is its type name and its behaviour on a script (`Validator.run`), which may
 * return a result or raise; what a validator does inside is modelled in its own
 * module.  The clock that names an anonymous script is the `now` parameter,
 * and the summary text is the `summarize` parameter.
 */
module Agent {
  import opened Wrappers
  import opened PyStr
  import opened PyDict
  import opened ValidationTypes
  import opened SourceTools
  import opened MapSourceTools

  /** One registered source tool. */
  datatype AnyTool =
    | CalendarTool(calendar: TECalendarSourceTool)
    | IndicatorsTool(indicators: TEIndicatorsSourceTool)
    | FomcTool(fomc: FOMCSourceTool)
    | NewsTool(news: NewsSourceTool)
    | BriefingTool(briefing: BriefingScriptSourceTool)
    | ArticleTool(article: ArticleSourceTool)
    | EventTool(event: EventSourceTool)
    | CustomTool(custom: CustomSourceTool)
  {
    /** The tool object itself. */
    function Obj(): object {
      match this
      case CalendarTool(t) => t
      case IndicatorsTool(t) => t
      case FomcTool(t) => t
      case NewsTool(t) => t
      case BriefingTool(t) => t
      case ArticleTool(t) => t
      case EventTool(t) => t
      case CustomTool(t) => t
    }

    /** The tool's `source_type` property. */
    function SourceType(): string {
      match this
      case CalendarTool(_) => CalendarType
      case IndicatorsTool(_) => IndicatorsType
      case FomcTool(_) => FomcType
      case NewsTool(_) => NewsType
      case BriefingTool(_) => BriefingType
      case ArticleTool(_) => ArticleType
      case EventTool(_) => EventType
      case CustomTool(_) => CustomType
    }
  }

  /** What the tool's `search(query)` returns in its current state. */
  function ToolSearch(t: AnyTool, query: string): seq<Record>
    reads t.Obj()
  {
    match t
    case CalendarTool(c) => CalendarSearch(c.loaded, c.data, query)
    case IndicatorsTool(c) => IndicatorSearch(c.loaded, c.data, query)
    case FomcTool(c) => FomcSearch(c.loaded, c.data, query)
    case NewsTool(c) => NewsSearch(c.loaded, c.data, query)
    case BriefingTool(c) => BriefingSearch(c.articles, c.charts, c.events, query)
    case ArticleTool(c) => ArticleSearch(c.data, query)
    case EventTool(c) => EventSearch(c.data, query)
    case CustomTool(c) => []
  }

  /** What the tool's `validate_claim(claim, reference)` returns in its current state. */
  function ToolValidate(t: AnyTool, codec: JsonCodec, claim: string, reference: string): SourceMatch
    reads t.Obj()
  {
    match t
    case CalendarTool(c) => assert t.Obj() == c; CalendarValidate(c.loaded, c.data, claim, reference)
    case IndicatorsTool(c) => assert t.Obj() == c; IndicatorValidate(c.loaded, c.data, claim, reference)
    case FomcTool(c) => assert t.Obj() == c; FomcValidate(c.loaded, c.data, claim, reference)
    case NewsTool(c) => assert t.Obj() == c; NewsValidate(c.loaded, c.data, claim, reference)
    case BriefingTool(c) => assert t.Obj() == c; BriefingValidate(c.articles, c.charts, c.events, codec, claim, reference)
    case ArticleTool(c) => assert t.Obj() == c; ArticleValidate(c.data, claim, reference)
    case EventTool(c) => assert t.Obj() == c; EventValidate(c.data, claim, reference)
    case CustomTool(c) => assert t.Obj() == c; CustomValidate(c.loaded, claim, reference)
  }

  /** `tool.search(query)`, dispatched to the tool's class. */
  method RunSearch(t: AnyTool, query: string) returns (results: seq<Record>)
    ensures results == ToolSearch(t, query)
  {
    match t
    case CalendarTool(c) => results := c.Search(query);
    case IndicatorsTool(c) => results := c.Search(query);
    case FomcTool(c) => results := c.Search(query);
    case NewsTool(c) => results := c.Search(query);
    case BriefingTool(c) => results := c.Search(query);
    case ArticleTool(c) => results := c.Search(query);
    case EventTool(c) => results := c.Search(query);
    case CustomTool(c) => results := c.Search(query);
  }

  /** `tool.validate_claim(claim, reference)`, dispatched to the tool's class. */
  method RunValidate(t: AnyTool, codec: JsonCodec, claim: string, reference: string) returns (m: SourceMatch)
    ensures m == ToolValidate(t, codec, claim, reference)
  {
    match t
    case CalendarTool(c) => m := c.ValidateClaim(claim, reference);
    case IndicatorsTool(c) => m := c.ValidateClaim(claim, reference);
    case FomcTool(c) => m := c.ValidateClaim(claim, reference);
    case NewsTool(c) => m := c.ValidateClaim(claim, reference);
    case BriefingTool(c) => m := c.ValidateClaim(codec, claim, reference);
    case ArticleTool(c) => m := c.ValidateClaim(claim, reference);
    case EventTool(c) => m := c.ValidateClaim(claim, reference);
    case CustomTool(c) => m := c.ValidateClaim(claim, reference);
  }

  /** What a validator's `validate` call does: return a result, or raise with a message. */
  datatype Outcome = Returned(result: ValidationResult) | Raised(message: string)

  /** A validator: its `validator_type` and its behaviour on a script. */
  datatype Validator = Validator(validatorType: string, run: string -> Outcome)

  /** The reply of `execute_tool`: an error dict, or the search results with their count. */
  datatype ToolResponse =
    | ToolError(error: string)
    | ToolResults(sourceType: string, query: string, results: seq<Record>, count: int)

  /** The source type a tool name calls for: the name without a leading `search_`. */
  function ToolSourceType(toolName: string): (sourceType: string)
    ensures StartsWith(toolName, "search_") ==> toolName == "search_" + sourceType
    ensures !StartsWith(toolName, "search_") ==> sourceType == toolName
  {
    if StartsWith(toolName, "search_") then toolName[7..] else toolName
  }

  // ---------------------------------------------------------------------------
  // The merge of validator results
  // ---------------------------------------------------------------------------

  /** The validators that run for the requested names, in order, with what each did; unknown names are skipped. */
  function Outcomes(validators: seq<(string, Validator)>, names: seq<string>, script: string): seq<(string, Outcome)> {
    if |names| == 0 then []
    else
      var name := names[|names| - 1];
      Outcomes(validators, names[..|names| - 1], script)
        + match Get(validators, name)
          case Some(v) => [(name, v.run(script))]
          case None => []
  }

  /** One turn of the merge loop of `validate`. */
  function Merge(acc: ValidationResult, name: string, outcome: Outcome): ValidationResult {
    match outcome
    case Raised(message) =>
      acc.(errors := acc.errors + ["Validator " + name + " error: " + message])
    case Returned(r) =>
      var worse := FitnessBefore(r.audienceFitness, acc.audienceFitness);
      acc.(totalClaims := acc.totalClaims + r.totalClaims,
           validClaims := acc.validClaims + r.validClaims,
           invalidClaims := acc.invalidClaims + r.invalidClaims,
           notFoundClaims := acc.notFoundClaims + r.notFoundClaims,
           sourceMatches := acc.sourceMatches + r.sourceMatches,
           missingCitations := acc.missingCitations + r.missingCitations,
           errors := acc.errors + r.errors,
           audienceFitness := if worse then r.audienceFitness else acc.audienceFitness,
           audienceFeedback := if worse then r.audienceFeedback else acc.audienceFeedback,
           citationsComplete := acc.citationsComplete && r.citationsComplete)
  }

  function MergeAll(acc: ValidationResult, outcomes: seq<(string, Outcome)>): ValidationResult {
    if |outcomes| == 0 then acc
    else
      var last := outcomes[|outcomes| - 1];
      Merge(MergeAll(acc, outcomes[..|outcomes| - 1]), last.0, last.1)
  }

  /** One turn of the merge loop: the next name merges its validator's outcome, or nothing when it names none. */
  lemma MergeAllStep(acc: ValidationResult, validators: seq<(string, Validator)>, names: seq<string>, i: int, script: string)
    requires 0 <= i < |names|
    ensures MergeAll(acc, Outcomes(validators, names[..i + 1], script))
         == match Get(validators, names[i])
            case Some(v) => Merge(MergeAll(acc, Outcomes(validators, names[..i], script)), names[i], v.run(script))
            case None => MergeAll(acc, Outcomes(validators, names[..i], script))
  {
    assert names[..i + 1][..i] == names[..i];
    var before := Outcomes(validators, names[..i], script);
    match Get(validators, names[i])
    case Some(v) =>
      var more := before + [(names[i], v.run(script))];
      assert Outcomes(validators, names[..i + 1], script) == more;
      assert more[..|before|] == before;
    case None =>
      assert Outcomes(validators, names[..i + 1], script) == before;
  }

  /** The verdict `validate` writes after the merge. */
  predicate OverallValid(r: ValidationResult) {
    r.invalidClaims == 0 && r.citationsComplete && r.audienceFitness in {Excellent, Good}
  }

  function TotalOf(r: ValidationResult): int { r.totalClaims }
  function ValidOf(r: ValidationResult): int { r.validClaims }
  function InvalidOf(r: ValidationResult): int { r.invalidClaims }
  function NotFoundOf(r: ValidationResult): int { r.notFoundClaims }
  function MatchesOf(r: ValidationResult): seq<SourceMatch> { r.sourceMatches }
  function MissingOf(r: ValidationResult): seq<string> { r.missingCitations }

  /** The sum of a count over the results that were returned. */
  function SumOf(outcomes: seq<(string, Outcome)>, count: ValidationResult -> int): int {
    if |outcomes| == 0 then 0
    else
      var o := outcomes[|outcomes| - 1].1;
      SumOf(outcomes[..|outcomes| - 1], count) + (if o.Returned? then count(o.result) else 0)
  }

  /** The concatenation of a list over the results that were returned. */
  function ConcatOf<T>(outcomes: seq<(string, Outcome)>, part: ValidationResult -> seq<T>): seq<T> {
    if |outcomes| == 0 then []
    else
      var o := outcomes[|outcomes| - 1].1;
      ConcatOf(outcomes[..|outcomes| - 1], part) + (if o.Returned? then part(o.result) else [])
  }

  /** The errors each validator contributes: a returned result's errors, or one line for a raise. */
  function ErrorLines(name: string, o: Outcome): seq<string> {
    match o
    case Returned(r) => r.errors
    case Raised(message) => ["Validator " + name + " error: " + message]
  }

  function ErrorsOf(outcomes: seq<(string, Outcome)>): seq<string> {
    if |outcomes| == 0 then []
    else
      var last := outcomes[|outcomes| - 1];
      ErrorsOf(outcomes[..|outcomes| - 1]) + ErrorLines(last.0, last.1)
  }

  /**
   * The merged counts are the sums over the validators that returned; the
   * matches, missing citations and errors are concatenated in run order, a
   * raise adding one error line; `citations_complete` is the AND of all
   * returned values.
   */
  lemma {:induction false} MergeAllSpec(id: string, outcomes: seq<(string, Outcome)>)
    ensures var c := MergeAll(NewResult(id), outcomes);
      c.scriptId == id
      && c.totalClaims == SumOf(outcomes, TotalOf)
      && c.validClaims == SumOf(outcomes, ValidOf)
      && c.invalidClaims == SumOf(outcomes, InvalidOf)
      && c.notFoundClaims == SumOf(outcomes, NotFoundOf)
      && c.sourceMatches == ConcatOf(outcomes, MatchesOf)
      && c.missingCitations == ConcatOf(outcomes, MissingOf)
      && c.errors == ErrorsOf(outcomes)
      && (c.citationsComplete <==>
            forall i :: 0 <= i < |outcomes| && outcomes[i].1.Returned? ==> outcomes[i].1.result.citationsComplete)
  {
    if |outcomes| > 0 {
      var init := outcomes[..|outcomes| - 1];
      MergeAllSpec(id, init);
      var c := MergeAll(NewResult(id), outcomes);
      var ci := MergeAll(NewResult(id), init);
      assert forall i :: 0 <= i < |init| ==> init[i] == outcomes[i];
      var o := outcomes[|outcomes| - 1].1;
      if o.Returned? {
        assert c.citationsComplete == (ci.citationsComplete && o.result.citationsComplete);
      }
    }
  }

  /** A result that was returned. */
  predicate ReturnedAt(outcomes: seq<(string, Outcome)>, i: int) {
    0 <= i < |outcomes| && outcomes[i].1.Returned?
  }

  /**
   * The merged fitness is the lowest, in the string order of the values,
   * of GOOD and every returned fitness: it is GOOD or a returned one, and no
   * returned one comes before it.  With GOOD it keeps the empty feedback;
   * otherwise it carries the feedback of a result with that fitness.
   */
  lemma {:induction false} MergeAllFitness(id: string, outcomes: seq<(string, Outcome)>)
    ensures var c := MergeAll(NewResult(id), outcomes);
      FitnessRank(c.audienceFitness) <= FitnessRank(Good)
      && (forall i :: ReturnedAt(outcomes, i) ==>
            FitnessRank(c.audienceFitness) <= FitnessRank(outcomes[i].1.result.audienceFitness))
      && (c.audienceFitness == Good ==> c.audienceFeedback == "")
      && (c.audienceFitness != Good ==>
            exists i :: ReturnedAt(outcomes, i)
              && outcomes[i].1.result.audienceFitness == c.audienceFitness
              && outcomes[i].1.result.audienceFeedback == c.audienceFeedback)
  {
    if |outcomes| > 0 {
      var init := outcomes[..|outcomes| - 1];
      MergeAllFitness(id, init);
      var ci := MergeAll(NewResult(id), init);
      var c := MergeAll(NewResult(id), outcomes);
      var n := |outcomes| - 1;
      forall i | 0 <= i < |init| ensures init[i] == outcomes[i] && (ReturnedAt(init, i) <==> ReturnedAt(outcomes, i)) {
      }
      var o := outcomes[n].1;
      MergeAudience(ci, outcomes[n].0, o);
      if o.Returned? {
        if ci.audienceFitness != Good && c.audienceFitness == ci.audienceFitness {
          var i :| ReturnedAt(init, i) && init[i].1.result.audienceFitness == ci.audienceFitness
                   && init[i].1.result.audienceFeedback == ci.audienceFeedback;
          assert ReturnedAt(outcomes, i);
        }
        if c.audienceFitness != ci.audienceFitness {
          assert ReturnedAt(outcomes, n);
        }
      } else {
        if ci.audienceFitness != Good {
          var i :| ReturnedAt(init, i) && init[i].1.result.audienceFitness == ci.audienceFitness
                   && init[i].1.result.audienceFeedback == ci.audienceFeedback;
          assert ReturnedAt(outcomes, i);
        }
      }
    }
  }

  /** One merge takes the returned fitness and its feedback exactly when that fitness comes first in the order. */
  lemma MergeAudience(acc: ValidationResult, name: string, o: Outcome)
    ensures var c := Merge(acc, name, o);
      if o.Returned? && FitnessRank(o.result.audienceFitness) < FitnessRank(acc.audienceFitness)
      then c.audienceFitness == o.result.audienceFitness && c.audienceFeedback == o.result.audienceFeedback
      else c.audienceFitness == acc.audienceFitness && c.audienceFeedback == acc.audienceFeedback
  {
    if o.Returned? {
      FitnessOrder(o.result.audienceFitness, acc.audienceFitness);
    }
  }

  /** So POOR is never the merged fitness, and one EXCELLENT result makes it EXCELLENT. */
  lemma MergedFitnessBounds(id: string, outcomes: seq<(string, Outcome)>)
    ensures MergeAll(NewResult(id), outcomes).audienceFitness != Poor
    ensures (exists i :: ReturnedAt(outcomes, i) && outcomes[i].1.result.audienceFitness == Excellent) ==>
      MergeAll(NewResult(id), outcomes).audienceFitness == Excellent
  {
    MergeAllFitness(id, outcomes);
  }

  /** Every validator that ran was registered under its name, and ran on the script given. */
  lemma {:induction false} OutcomesRegistered(validators: seq<(string, Validator)>, names: seq<string>, script: string)
    ensures |Outcomes(validators, names, script)| <= |names|
    ensures forall p :: p in Outcomes(validators, names, script) ==>
      p.0 in names && Get(validators, p.0).Some? && p.1 == Get(validators, p.0).value.run(script)
  {
    if |names| > 0 {
      OutcomesRegistered(validators, names[..|names| - 1], script);
    }
  }

  /** The names `validate` runs: the ones asked for, or every registered one when none are. */
  function NamesToRun(validators: seq<(string, Validator)>, requested: Option<seq<string>>): seq<string> {
    if requested.Some? && |requested.value| > 0 then requested.value else Keys(validators)
  }

  /** `script_id or f"script_{now}"` */
  function ScriptId(scriptId: Option<string>, now: string): (id: string)
    ensures scriptId.Some? && scriptId.value != "" ==> id == scriptId.value
    ensures scriptId.None? || scriptId.value == "" ==> id == "script_" + now
  {
    if scriptId.Some? && scriptId.value != "" then scriptId.value else "script_" + now
  }

  class ValidationAgent {
    var sourceTools: seq<(string, AnyTool)>
    var validators: seq<(string, Validator)>

    constructor ()
      ensures sourceTools == [] && validators == []
    {
      sourceTools := [];
      validators := [];
    }

    /** `register_source_tool`: the tool under its source type, replacing any tool already there. */
    method RegisterSourceTool(tool: AnyTool)
      modifies this
      ensures sourceTools == Set(old(sourceTools), tool.SourceType(), tool)
      ensures validators == old(validators)
    {
      sourceTools := Set(sourceTools, tool.SourceType(), tool);
    }

    /** `register_validator`: the validator under its type, replacing any validator already there. */
    method RegisterValidator(validator: Validator)
      modifies this
      ensures validators == Set(old(validators), validator.validatorType, validator)
      ensures sourceTools == old(sourceTools)
    {
      validators := Set(validators, validator.validatorType, validator);
    }

    /** `execute_tool(tool_name, arguments)` */
    method ExecuteTool(toolName: string, arguments: Record) returns (response: ToolResponse)
      ensures var sourceType := ToolSourceType(toolName);
        match Get(sourceTools, sourceType)
        case None => response == ToolError("Unknown source type: " + sourceType)
        case Some(tool) =>
          response == ToolResults(sourceType, Field(arguments, "query"), ToolSearch(tool, Field(arguments, "query")),
                                  |ToolSearch(tool, Field(arguments, "query"))|)
    {
      var sourceType := if StartsWith(toolName, "search_") then toolName[7..] else toolName;
      var tool := Get(sourceTools, sourceType);
      if tool.None? {
        return ToolError("Unknown source type: " + sourceType);
      }
      var query := Field(arguments, "query");
      var results := RunSearch(tool.value, query);
      response := ToolResults(sourceType, query, results, |results|);
    }

    /** `validate_claim(claim, source_type, reference)`: ERROR for an unregistered type, else the tool's verdict. */
    method ValidateClaim(codec: JsonCodec, claim: string, sourceType: string, reference: string) returns (m: SourceMatch)
      ensures match Get(sourceTools, sourceType)
        case None => m == NoData(claim, sourceType, reference, Error, 0, "Unknown source type: " + sourceType)
        case Some(tool) => m == ToolValidate(tool, codec, claim, reference)
    {
      var tool := Get(sourceTools, sourceType);
      if tool.None? {
        return NoData(claim, sourceType, reference, Error, 0, "Unknown source type: " + sourceType);
      }
      m := RunValidate(tool.value, codec, claim, reference);
    }

    /**
     * `validate(script, script_id, validators)`: runs the requested (or all)
     * registered validators in order, merges what each returns, records one
     * error line for each that raises, then decides `overall_valid`.
     */
    method Validate(script: string, scriptId: Option<string>, requested: Option<seq<string>>, now: string,
                    summarize: ValidationResult -> string) returns (result: ValidationResult)
      ensures var merged := MergeAll(NewResult(ScriptId(scriptId, now)),
                                     Outcomes(validators, NamesToRun(validators, requested), script));
        result == merged.(overallValid := OverallValid(merged), summary := summarize(merged.(overallValid := OverallValid(merged))))
      ensures result.overallValid <==> result.invalidClaims == 0 && result.citationsComplete && result.audienceFitness in {Excellent, Good}
    {
      var id := if scriptId.Some? && scriptId.value != "" then scriptId.value else "script_" + now;
      var names := if requested.Some? && |requested.value| > 0 then requested.value else Keys(validators);
      var combined := NewResult(id);
      var i := 0;
      while i < |names|
        invariant 0 <= i <= |names|
        invariant combined == MergeAll(NewResult(id), Outcomes(validators, names[..i], script))
      {
        var name := names[i];
        MergeAllStep(NewResult(id), validators, names, i, script);
        i := i + 1;
        var validator := Get(validators, name);
        if validator.None? {
          continue;
        }
        var outcome := validator.value.run(script);
        combined := Merge(combined, name, outcome);
      }
      assert names[..i] == names;
      combined := combined.(overallValid := combined.invalidClaims == 0 && combined.citationsComplete
                                             && combined.audienceFitness in {Excellent, Good});
      combined := combined.(summary := summarize(combined));
      result := combined;
    }
  }
}
