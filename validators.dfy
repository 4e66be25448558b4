/**
 * The LLM-backed validators of validation_agent/validators.py: the tool
 * dispatch `execute_source_tool`, the bounded tool loop
 * `call_llm_with_tools`, and what the fact, audience and citation
 * validators make of the model's reply.
 *
 * The model is an oracle: given the conversation so far it answers with tool
 * calls and text.  Pulling a fenced JSON block out of a reply and decoding
 * JSON are parameters too.
 */
module Validators {
  import opened Wrappers
  import opened PyStr
  import opened PyDict
  import opened ValidationTypes
  import opened Agent

  // ---------------------------------------------------------------------------
  // execute_source_tool
  // ---------------------------------------------------------------------------

  /** The fixed table from tool names to source types. */
  function FixedSource(toolName: string): Option<string> {
    if toolName == "search_calendar_events" then Some("calendar_events")
    else if toolName == "search_macro_data" then Some("macro_data")
    else if toolName == "search_fomc_events" then Some("fomc_events")
    else if toolName == "search_news_data" then Some("news_data")
    else None
  }

  /** The source type a tool name asks for: the fixed table, else the name after a `search_` prefix. */
  function ToolNameSource(toolName: string): (r: Option<string>)
    ensures FixedSource(toolName).Some? ==> r == FixedSource(toolName)
    ensures FixedSource(toolName).None? ==>
      (r.Some? <==> StartsWith(toolName, "search_")) && (r.Some? ==> toolName == "search_" + r.value)
  {
    if FixedSource(toolName).Some? then FixedSource(toolName)
    else if StartsWith(toolName, "search_") then Some(toolName[7..])
    else None
  }

  /** The fixed table agrees with stripping the prefix: every name maps to what follows `search_`. */
  lemma ToolNameSourceStrips(toolName: string)
    ensures ToolNameSource(toolName).Some? <==> StartsWith(toolName, "search_")
    ensures ToolNameSource(toolName).Some? ==> ToolNameSource(toolName).value == toolName[7..]
  {
    if FixedSource(toolName).Some? {
      assert toolName[..7] == "search_";
    }
  }

  /** The objects whose state the registered tools' searches read. */
  function ToolObjects(tools: seq<(string, AnyTool)>): set<object> {
    set p | p in tools :: p.1.Obj()
  }

  /** The first `n` items, or all of them when there are fewer. */
  function Take<T>(s: seq<T>, n: nat): (r: seq<T>)
    ensures |r| <= n && |r| <= |s| && r == s[..|r|]
    ensures |s| <= n ==> r == s
  {
    if |s| <= n then s else s[..n]
  }

  /**
   * `execute_source_tool` when the search returns: an error for a name that
   * names no registered source, else at most ten results and the full count.
   */
  function ToolRespond(toolName: string, arguments: Record, tools: seq<(string, AnyTool)>): (r: ToolResponse)
    reads ToolObjects(tools)
    ensures var st := ToolNameSource(toolName);
      r.ToolError? <==> st.None? || st.value == "" || st.value !in Keys(tools)
    ensures r.ToolError? ==> r.error == "Unknown tool or source: " + toolName
    ensures r.ToolResults? ==> Some(r.sourceType) == ToolNameSource(toolName) && r.sourceType in Keys(tools)
    ensures r.ToolResults? && r.sourceType in Keys(tools) ==>
      var full := ToolSearch(Get(tools, r.sourceType).value, Field(arguments, "query"));
      r.query == Field(arguments, "query")
      && |r.results| <= 10 && |r.results| <= |full| && r.results == full[..|r.results|] && (|full| <= 10 ==> r.results == full)
      && r.count == |full|
  {
    var st := ToolNameSource(toolName);
    if st.None? || st.value == "" || st.value !in Keys(tools) then
      ToolError("Unknown tool or source: " + toolName)
    else
      var tool := Get(tools, st.value).value;
      var query := Field(arguments, "query");
      var results := ToolSearch(tool, query);
      ToolResults(st.value, query, Take(results, 10), |results|)
  }

  /** `execute_source_tool(tool_name, arguments, source_tools)` */
  method ExecuteSourceTool(toolName: string, arguments: Record, tools: seq<(string, AnyTool)>)
    returns (response: ToolResponse)
    ensures response == ToolRespond(toolName, arguments, tools)
  {
    var sourceType := FixedSource(toolName);
    if sourceType.None? && StartsWith(toolName, "search_") {
      sourceType := Some(toolName[7..]);
    }
    if sourceType.None? || sourceType.value == "" || sourceType.value !in Keys(tools) {
      return ToolError("Unknown tool or source: " + toolName);
    }
    var tool := Get(tools, sourceType.value);
    var query := Field(arguments, "query");
    var results := RunSearch(tool.value, query);
    response := ToolResults(sourceType.value, query, if |results| <= 10 then results else results[..10], |results|);
  }

  // ---------------------------------------------------------------------------
  // call_llm_with_tools
  // ---------------------------------------------------------------------------

  /** A tool call the model asks for; its arguments already decoded. */
  datatype ToolCall = ToolCall(id: string, name: string, arguments: Record)

  /** A chat message; the text of an assistant message is `""` when it has none. */
  datatype Message =
    | System(content: string)
    | User(content: string)
    | Assistant(calls: seq<ToolCall>, content: string)
    | ToolReply(callId: string, content: string)

  /** The model: given the conversation, its next message's tool calls and text. */
  type Llm = seq<Message> -> (seq<ToolCall>, string)

  /** The tool messages answering the calls, in order; `dumps` is `json.dumps`. */
  function Replies(calls: seq<ToolCall>, tools: seq<(string, AnyTool)>, dumps: ToolResponse -> string): (ms: seq<Message>)
    reads ToolObjects(tools)
    ensures |ms| == |calls|
  {
    if |calls| == 0 then []
    else
      var c := calls[|calls| - 1];
      Replies(calls[..|calls| - 1], tools, dumps) + [ToolReply(c.id, dumps(ToolRespond(c.name, c.arguments, tools)))]
  }

  /** A conversation's outcome: the text returned and the messages at the end. */
  datatype Conversation = Conversation(text: string, messages: seq<Message>)

  /**
   * The loop of `call_llm_with_tools` with `rounds` iterations left: ask the
   * model; with no tool calls its text is the answer, else the calls are
   * answered and the loop goes on.  When the rounds run out the answer is the
   * last message's text.
   */
  function Converse(llm: Llm, tools: seq<(string, AnyTool)>, dumps: ToolResponse -> string, messages: seq<Message>,
                    rounds: nat): Conversation
    reads ToolObjects(tools)
    decreases rounds
  {
    if rounds == 0 then Conversation(if |messages| == 0 then "" else messages[|messages| - 1].content, messages)
    else
      var (calls, content) := llm(messages);
      var asked := messages + [Assistant(calls, content)];
      if |calls| == 0 then Conversation(content, asked)
      else Converse(llm, tools, dumps, asked + Replies(calls, tools, dumps), rounds - 1)
  }

  /** How many times the loop of `Converse` asks the model. */
  function LlmCalls(llm: Llm, tools: seq<(string, AnyTool)>, dumps: ToolResponse -> string, messages: seq<Message>,
                    rounds: nat): nat
    reads ToolObjects(tools)
    decreases rounds
  {
    if rounds == 0 then 0
    else
      var (calls, content) := llm(messages);
      if |calls| == 0 then 1
      else 1 + LlmCalls(llm, tools, dumps, messages + [Assistant(calls, content)] + Replies(calls, tools, dumps),
                        rounds - 1)
  }

  /**
   * The model is asked at most `rounds` times, and at least once when any
   * round is allowed; every call leaves a message, and the conversation only
   * grows.
   */
  lemma {:induction false} ConverseBounds(llm: Llm, tools: seq<(string, AnyTool)>, dumps: ToolResponse -> string,
                                          messages: seq<Message>, rounds: nat)
    ensures var n := LlmCalls(llm, tools, dumps, messages, rounds);
      var c := Converse(llm, tools, dumps, messages, rounds);
      n <= rounds && (rounds > 0 ==> n >= 1)
      && |c.messages| >= |messages| + n && c.messages[..|messages|] == messages
    decreases rounds
  {
    if rounds > 0 {
      var (calls, content) := llm(messages);
      var asked := messages + [Assistant(calls, content)];
      if |calls| > 0 {
        var next := asked + Replies(calls, tools, dumps);
        ConverseBounds(llm, tools, dumps, next, rounds - 1);
        var c := Converse(llm, tools, dumps, next, rounds - 1);
        assert Converse(llm, tools, dumps, messages, rounds) == c;
        assert LlmCalls(llm, tools, dumps, messages, rounds) == 1 + LlmCalls(llm, tools, dumps, next, rounds - 1);
        assert c.messages[..|messages|] == c.messages[..|next|][..|messages|];
        assert next[..|messages|] == messages;
      }
    }
  }

  /** When the model answers without tool calls, its text is returned after one call. */
  lemma ConverseDirectAnswer(llm: Llm, tools: seq<(string, AnyTool)>, dumps: ToolResponse -> string,
                             messages: seq<Message>, rounds: nat)
    requires rounds > 0 && |llm(messages).0| == 0
    ensures Converse(llm, tools, dumps, messages, rounds)
            == Conversation(llm(messages).1, messages + [Assistant([], llm(messages).1)])
  {
  }

  /** A round with tool calls: the conversation goes on from the answered calls. */
  lemma ConverseStep(llm: Llm, tools: seq<(string, AnyTool)>, dumps: ToolResponse -> string, messages: seq<Message>,
                     rounds: nat)
    requires rounds > 0 && |llm(messages).0| > 0
    ensures Converse(llm, tools, dumps, messages, rounds)
            == Converse(llm, tools, dumps,
                        messages + [Assistant(llm(messages).0, llm(messages).1)] + Replies(llm(messages).0, tools, dumps),
                        rounds - 1)
  {
  }

  /** The tool calls of one assistant message, answered in order. */
  method AnswerCalls(calls: seq<ToolCall>, tools: seq<(string, AnyTool)>, dumps: ToolResponse -> string,
                     messages: seq<Message>) returns (after: seq<Message>)
    ensures after == messages + Replies(calls, tools, dumps)
  {
    after := messages;
    var j := 0;
    while j < |calls|
      invariant 0 <= j <= |calls|
      invariant after == messages + Replies(calls[..j], tools, dumps)
    {
      ghost var replies := Replies(calls[..j], tools, dumps);
      // the tools' objects exist already, so the call below leaves them as they are
      assert forall o :: o in ToolObjects(tools) ==> allocated(o);
      var result := ExecuteSourceTool(calls[j].name, calls[j].arguments, tools);
      var reply := ToolReply(calls[j].id, dumps(result));
      assert calls[..j + 1][..j] == calls[..j];
      assert Replies(calls[..j + 1], tools, dumps) == replies + [reply];
      assert messages + (replies + [reply]) == messages + replies + [reply];
      after := after + [reply];
      j := j + 1;
    }
    assert calls[..j] == calls;
  }

  /**
   * One iteration of the tool loop: ask the model; `done` with its text when
   * it calls no tool, else the conversation with the calls answered.
   */
  method Round(messages: seq<Message>, tools: seq<(string, AnyTool)>, rounds: nat, llm: Llm,
               dumps: ToolResponse -> string, ghost outcome: Conversation)
    returns (done: bool, text: string, after: seq<Message>)
    requires rounds > 0 && outcome == Converse(llm, tools, dumps, messages, rounds)
    ensures done ==> Conversation(text, after) == outcome
    ensures !done ==> Converse(llm, tools, dumps, after, rounds - 1) == outcome
  {
    var reply := llm(messages);
    var calls := reply.0;
    after := messages + [Assistant(calls, reply.1)];
    if |calls| == 0 {
      return true, reply.1, after;
    }
    assert forall o :: o in ToolObjects(tools) ==> allocated(o);
    after := AnswerCalls(calls, tools, dumps, after);
    ConverseStep(llm, tools, dumps, messages, rounds);
    done, text := false, "";
  }

  /** `call_llm_with_tools(messages, tools, source_tools, max_tool_iterations)`; `messages` grows in place. */
  method CallLlmWithTools(messages: seq<Message>, tools: seq<(string, AnyTool)>, maxToolIterations: nat, llm: Llm,
                          dumps: ToolResponse -> string) returns (text: string, finalMessages: seq<Message>)
    ensures Conversation(text, finalMessages) == Converse(llm, tools, dumps, messages, maxToolIterations)
  {
    assert forall o :: o in ToolObjects(tools) ==> allocated(o);
    ghost var outcome := Converse(llm, tools, dumps, messages, maxToolIterations);
    finalMessages := messages;
    var left := maxToolIterations;  // iterations of `range(max_tool_iterations)` still to run
    while left > 0
      invariant Converse(llm, tools, dumps, finalMessages, left) == outcome
      invariant forall o :: o in ToolObjects(tools) ==> allocated(o)
    {
      var done, answer, after := Round(finalMessages, tools, left, llm, dumps, outcome);
      if done {
        return answer, after;
      }
      finalMessages := after;
      left := left - 1;
    }
    assert Converse(llm, tools, dumps, finalMessages, 0) == outcome;
    text := if |finalMessages| == 0 then "" else finalMessages[|finalMessages| - 1].content;
  }

  // ---------------------------------------------------------------------------
  // Reading the model's reply
  // ---------------------------------------------------------------------------

  /** The text the model replied with, or the message of what the call raised. */
  datatype LlmReply = Replied(text: string) | LlmRaised(message: string)

  /**
   * The `_parse_*_response` methods: the fenced JSON block if it decodes, else
   * the whole reply if it decodes, else the validator's fallback.
   */
  function ParseReply<D>(response: string, fenced: string -> Option<string>, loads: string -> Option<D>,
                         fallback: D): (d: D)
    ensures (fenced(response).None? || loads(fenced(response).value).None?) && loads(response).None? ==> d == fallback
    ensures fenced(response).Some? && loads(fenced(response).value).Some? ==> d == loads(fenced(response).value).value
    ensures (fenced(response).None? || loads(fenced(response).value).None?) && loads(response).Some? ==> d == loads(response).value
  {
    var block := fenced(response);
    if block.Some? && loads(block.value).Some? then loads(block.value).value
    else if loads(response).Some? then loads(response).value
    else fallback
  }

  // ---------------------------------------------------------------------------
  // FactValidator
  // ---------------------------------------------------------------------------

  /** One entry of `claims`, each missing key at its default (`not_found` for the status, 0 for the confidence). */
  datatype ClaimData = ClaimData(claimText: string, sourceType: string, reference: string, status: string,
                                 confidence: int, explanation: string, suggestedCorrection: Option<string>)

  datatype FactData = FactData(claims: seq<ClaimData>, summary: string)

  /** `FactValidator._map_status`: the status names, any case; anything else is NOT_FOUND. */
  function MapStatus(status: string): (st: ValidationStatus)
    ensures st == Valid <==> Lower(status) == "valid"
    ensures st == Partial <==> Lower(status) == "partial"
    ensures st == Invalid <==> Lower(status) == "invalid"
    ensures st == Error <==> Lower(status) == "error"
    ensures st == NotFound <==> Lower(status) !in {"valid", "partial", "invalid", "error"}
  {
    var s := Lower(status);
    if s == "valid" then Valid
    else if s == "partial" then Partial
    else if s == "invalid" then Invalid
    else if s == "not_found" then NotFound
    else if s == "error" then Error
    else NotFound
  }

  /** Mapping a status's own value gives the status back. */
  lemma MapStatusValue(st: ValidationStatus)
    ensures MapStatus(StatusValue(st)) == st
  {
    LowerIdempotent(StatusValue(st));
    match st
    case Valid => assert Lower("valid") == "valid";
    case Partial => assert Lower("partial") == "partial";
    case Invalid => assert Lower("invalid") == "invalid";
    case NotFound => assert Lower("not_found") == "not_found";
    case Error => assert Lower("error") == "error";
  }

  /** The match a claim becomes. */
  function FactMatch(c: ClaimData): (m: SourceMatch)
    ensures m.status == MapStatus(c.status) && m.claim == c.claimText && m.confidence == c.confidence
  {
    SourceMatch(c.claimText, c.sourceType, c.reference, None, MapStatus(c.status), c.confidence, c.explanation,
                c.suggestedCorrection)
  }

  /** What `FactValidator.validate` returns for the model's reply. */
  function FactResult(id: string, reply: LlmReply, fenced: string -> Option<string>,
                      loads: string -> Option<FactData>): ValidationResult {
    match reply
    case LlmRaised(message) => NewResult(id).(errors := [message])
    case Replied(text) =>
      var data := ParseReply(text, fenced, loads, FactData([], text));
      Tallied(id, Matches(data.claims, FactMatch)).(summary := data.summary)
  }

  /**
   * One claim per parsed entry; each raises exactly one of the valid, invalid
   * and not-found counts by its status, except PARTIAL and ERROR, which raise
   * none.
   */
  lemma FactResultCounts(id: string, reply: LlmReply, fenced: string -> Option<string>,
                         loads: string -> Option<FactData>)
    requires reply.Replied?
    ensures var r := FactResult(id, reply, fenced, loads);
      var ms := r.sourceMatches;
      r.totalClaims == |ms|
      && r.validClaims + r.invalidClaims + r.notFoundClaims
         + CountStatus(ms, Partial) + CountStatus(ms, Error) == r.totalClaims
  {
    var data := ParseReply(reply.text, fenced, loads, FactData([], reply.text));
    CountPartition(Matches(data.claims, FactMatch));
  }

  /** A reply that does not decode counts no claims, and its text becomes the summary. */
  lemma FactFallback(id: string, text: string, fenced: string -> Option<string>, loads: string -> Option<FactData>)
    requires (fenced(text).None? || loads(fenced(text).value).None?) && loads(text).None?
    ensures var r := FactResult(id, Replied(text), fenced, loads);
      r.totalClaims == 0 && r.sourceMatches == [] && r.summary == text && r.overallValid
  {
  }

  /** The loop of `FactValidator.validate` over the parsed claims. */
  method TallyClaims(id: string, claims: seq<ClaimData>) returns (result: ValidationResult)
    ensures result == Tallied(id, Matches(claims, FactMatch))
  {
    result := NewResult(id);
    var i := 0;
    assert NewResult(id) == Tallied(id, []);
    while i < |claims|
      invariant 0 <= i <= |claims|
      invariant result == Tallied(id, Matches(claims[..i], FactMatch))
    {
      var m := FactMatch(claims[i]);
      ghost var ms := Matches(claims[..i], FactMatch);
      assert claims[..i + 1][..i] == claims[..i];
      assert Matches(claims[..i + 1], FactMatch) == ms + [m];
      TallyStep(id, ms, m);
      result := result.(sourceMatches := result.sourceMatches + [m], totalClaims := result.totalClaims + 1,
                        validClaims := result.validClaims + (if m.status == Valid then 1 else 0),
                        invalidClaims := result.invalidClaims + (if m.status == Invalid then 1 else 0),
                        notFoundClaims := result.notFoundClaims + (if m.status == NotFound then 1 else 0));
      i := i + 1;
    }
    assert claims[..i] == claims;
  }

  /** `FactValidator.validate` from the model's reply on. */
  method FactFromReply(id: string, reply: LlmReply, fenced: string -> Option<string>,
                       loads: string -> Option<FactData>) returns (result: ValidationResult)
    ensures result == FactResult(id, reply, fenced, loads)
  {
    if reply.LlmRaised? {
      result := NewResult(id);
      result := result.(errors := result.errors + [reply.message]);
      return;
    }
    var data := ParseReply(reply.text, fenced, loads, FactData([], reply.text));
    result := TallyClaims(id, data.claims);
    result := result.(summary := data.summary);
  }

  /** The system prompt of the fact validator; its text is not modelled. */
  const FactPrompt: string := "FACT_VALIDATOR_PROMPT"

  /**
   * `FactValidator.validate`: the script goes to the model with the tools, at
   * most ten rounds, and the reply is tallied.
   */
  method FactValidate(script: string, id: string, tools: seq<(string, AnyTool)>, llm: Llm,
                      dumps: ToolResponse -> string, fenced: string -> Option<string>,
                      loads: string -> Option<FactData>) returns (result: ValidationResult)
    ensures result == FactResult(id, Replied(Converse(llm, tools, dumps, [System(FactPrompt), User(script)], 10).text),
                                 fenced, loads)
  {
    assert forall o :: o in ToolObjects(tools) ==> allocated(o);
    var text, _ := CallLlmWithTools([System(FactPrompt), User(script)], tools, 10, llm, dumps);
    assert text == Converse(llm, tools, dumps, [System(FactPrompt), User(script)], 10).text;
    result := FactFromReply(id, Replied(text), fenced, loads);
  }

  // ---------------------------------------------------------------------------
  // AudienceValidator
  // ---------------------------------------------------------------------------

  /** One entry of `specific_issues`, each missing key at `?`. */
  datatype IssueData = IssueData(location: string, issue: string, suggestion: string)

  datatype AudienceData = AudienceData(fitness: string, strengths: seq<string>, improvements: seq<string>,
                                       issues: seq<IssueData>, summary: string)

  /** `AudienceValidator._map_fitness`: the four names, any case; anything else is GOOD. */
  function MapFitness(fitness: string): (f: AudienceFitness)
    ensures f == Excellent <==> Lower(fitness) == "excellent"
    ensures f == Fair <==> Lower(fitness) == "fair"
    ensures f == Poor <==> Lower(fitness) == "poor"
    ensures f == Good <==> Lower(fitness) !in {"excellent", "fair", "poor"}
  {
    var s := Lower(fitness);
    if s == "excellent" then Excellent
    else if s == "good" then Good
    else if s == "fair" then Fair
    else if s == "poor" then Poor
    else Good
  }

  /** Mapping a fitness's own value gives the fitness back. */
  lemma MapFitnessValue(f: AudienceFitness)
    ensures MapFitness(FitnessValue(f)) == f
  {
    match f
    case Excellent => assert Lower("excellent") == "excellent";
    case Good => assert Lower("good") == "good";
    case Fair => assert Lower("fair") == "fair";
    case Poor => assert Lower("poor") == "poor";
  }

  /** A list as indented bullet lines. */
  function Bullets(items: seq<string>): string {
    Join("\n", seq(|items|, k requires 0 <= k < |items| => "  - " + items[k]))
  }

  /** The three lines one specific issue adds. */
  function IssueLines(i: IssueData): seq<string> {
    ["  위치: " + i.location, "  문제: " + i.issue, "  제안: " + i.suggestion]
  }

  function AllIssueLines(issues: seq<IssueData>): seq<string> {
    if |issues| == 0 then [] else AllIssueLines(issues[..|issues| - 1]) + IssueLines(issues[|issues| - 1])
  }

  /** The feedback parts: strengths, improvements, then the specific issues, each block only when non-empty. */
  function FeedbackParts(d: AudienceData): seq<string> {
    (if |d.strengths| > 0 then ["✅ 장점:\n" + Bullets(d.strengths)] else [])
    + (if |d.improvements| > 0 then ["⚠️ 개선점:\n" + Bullets(d.improvements)] else [])
    + (if |d.issues| > 0 then ["📝 구체적 이슈:"] + AllIssueLines(d.issues) else [])
  }

  /** What `AudienceValidator.validate` returns for the model's reply. */
  function AudienceResult(id: string, reply: LlmReply, fenced: string -> Option<string>,
                          loads: string -> Option<AudienceData>): ValidationResult {
    match reply
    case LlmRaised(message) => NewResult(id).(errors := [message])
    case Replied(text) =>
      var d := ParseReply(text, fenced, loads, AudienceData("good", [], [], [], text));
      NewResult(id).(audienceFitness := MapFitness(d.fitness), audienceFeedback := Join("\n\n", FeedbackParts(d)),
                     summary := d.summary)
  }

  /** Feedback is empty exactly when there are no strengths, improvements or issues. */
  lemma FeedbackEmpty(d: AudienceData)
    ensures |FeedbackParts(d)| == 0 <==> |d.strengths| == 0 && |d.improvements| == 0 && |d.issues| == 0
  {
  }

  /** A reply that does not decode rates the script GOOD with no feedback, and counts no claims. */
  lemma AudienceFallback(id: string, text: string, fenced: string -> Option<string>,
                         loads: string -> Option<AudienceData>)
    requires (fenced(text).None? || loads(fenced(text).value).None?) && loads(text).None?
    ensures var r := AudienceResult(id, Replied(text), fenced, loads);
      r.audienceFitness == Good && r.audienceFeedback == "" && r.summary == text && r.totalClaims == 0
  {
    assert Lower("good") == "good";
  }

  /** The feedback loop of `AudienceValidator.validate`. */
  method BuildFeedback(d: AudienceData) returns (parts: seq<string>)
    ensures parts == FeedbackParts(d)
  {
    parts := [];
    if |d.strengths| > 0 {
      parts := parts + ["✅ 장점:\n" + Bullets(d.strengths)];
    }
    if |d.improvements| > 0 {
      parts := parts + ["⚠️ 개선점:\n" + Bullets(d.improvements)];
    }
    if |d.issues| > 0 {
      ghost var head := parts;
      parts := parts + ["📝 구체적 이슈:"];
      var i := 0;
      while i < |d.issues|
        invariant 0 <= i <= |d.issues|
        invariant parts == head + ["📝 구체적 이슈:"] + AllIssueLines(d.issues[..i])
      {
        assert d.issues[..i + 1][..i] == d.issues[..i];
        parts := parts + ["  위치: " + d.issues[i].location];
        parts := parts + ["  문제: " + d.issues[i].issue];
        parts := parts + ["  제안: " + d.issues[i].suggestion];
        i := i + 1;
      }
      assert d.issues[..i] == d.issues;
    }
  }

  /** `AudienceValidator.validate` from the model's reply on. */
  method AudienceFromReply(id: string, reply: LlmReply, fenced: string -> Option<string>,
                           loads: string -> Option<AudienceData>) returns (result: ValidationResult)
    ensures result == AudienceResult(id, reply, fenced, loads)
  {
    result := NewResult(id);
    if reply.LlmRaised? {
      result := result.(errors := result.errors + [reply.message]);
      return;
    }
    var d := ParseReply(reply.text, fenced, loads, AudienceData("good", [], [], [], reply.text));
    result := result.(audienceFitness := MapFitness(d.fitness));
    var parts := BuildFeedback(d);
    result := result.(audienceFeedback := Join("\n\n", parts));
    result := result.(summary := d.summary);
  }

  // ---------------------------------------------------------------------------
  // CitationValidator
  // ---------------------------------------------------------------------------

  /** The decoded reply: `citations_complete` (default true), `claims_without_citation` and `summary`. */
  datatype CitationData = CitationData(complete: bool, claimsWithoutCitation: seq<Record>, summary: string)

  /** The `claim` of each uncited entry, `""` when it has none. */
  function MissingClaims(claims: seq<Record>): (r: seq<string>)
    ensures |r| == |claims|
    ensures forall k {:trigger r[k]} :: 0 <= k < |claims| ==> r[k] == Field(claims[k], "claim")
  {
    if |claims| == 0 then []
    else MissingClaims(claims[..|claims| - 1]) + [Field(claims[|claims| - 1], "claim")]
  }

  /** What `CitationValidator.validate` returns for the model's reply. */
  function CitationResult(id: string, reply: LlmReply, fenced: string -> Option<string>,
                          loads: string -> Option<CitationData>): ValidationResult {
    match reply
    case LlmRaised(message) => NewResult(id).(errors := [message])
    case Replied(text) =>
      var d := ParseReply(text, fenced, loads, CitationData(true, [], text));
      NewResult(id).(citationsComplete := d.complete, missingCitations := MissingClaims(d.claimsWithoutCitation),
                     summary := d.summary)
  }

  /** A reply that does not decode counts the citations complete, with none missing. */
  lemma CitationFallback(id: string, text: string, fenced: string -> Option<string>,
                         loads: string -> Option<CitationData>)
    requires (fenced(text).None? || loads(fenced(text).value).None?) && loads(text).None?
    ensures var r := CitationResult(id, Replied(text), fenced, loads);
      r.citationsComplete && r.missingCitations == [] && r.summary == text
  {
  }

  /** `CitationValidator.validate` from the model's reply on. */
  method CitationFromReply(id: string, reply: LlmReply, fenced: string -> Option<string>,
                           loads: string -> Option<CitationData>) returns (result: ValidationResult)
    ensures result == CitationResult(id, reply, fenced, loads)
  {
    result := NewResult(id);
    if reply.LlmRaised? {
      result := result.(errors := result.errors + [reply.message]);
      return;
    }
    var d := ParseReply(reply.text, fenced, loads, CitationData(true, [], reply.text));
    result := result.(citationsComplete := d.complete);
    var missing: seq<string> := [];
    var i := 0;
    while i < |d.claimsWithoutCitation|
      invariant 0 <= i <= |d.claimsWithoutCitation|
      invariant missing == MissingClaims(d.claimsWithoutCitation[..i])
    {
      assert d.claimsWithoutCitation[..i + 1][..i] == d.claimsWithoutCitation[..i];
      missing := missing + [Field(d.claimsWithoutCitation[i], "claim")];
      i := i + 1;
    }
    assert d.claimsWithoutCitation[..i] == d.claimsWithoutCitation;
    result := result.(missingCitations := missing, summary := d.summary);
  }
}
