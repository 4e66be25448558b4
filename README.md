# Briefing pipeline model

A Dafny model of the deterministic core of a market-briefing pipeline. The
pipeline has four parts:

- **Calendar and FOMC scrapers** (`te_calendar_scraper/`, `scraper/`). They
  read TradingEconomics calendar rows and indicator values, and the FOMC
  minutes and press-conference pages. They:
  - filter, deduplicate and bucket the rows;
  - name FOMC meetings `{year}_{abbr}_{dates}`;
  - keep the ten most recent release months.
- **Validation agent** (`validation_agent/`). Source tools hold loaded
  records and check each cited claim, giving VALID, PARTIAL, INVALID,
  NOT_FOUND or ERROR. Validators tally these verdicts. `ValidationAgent`
  dispatches tool calls and merges the validators' results.
- **Closing briefing** (`closing_briefing/`). A loader fills six source
  keys from successive locations without overwriting earlier data. Two
  tool executors serve the language model's searches and log one reference
  per record reported. A generate, critique and revise graph runs until the
  critic is satisfied or the iteration bound is reached.
- **Shared semantics.** Python `str` and `dict` behaviour (`PyStr`,
  `PyDict`), the stable `list.sort` (`KeySort`, `DateSort`), calendar dates
  (`Calendar`) and `Option` (`Wrappers`).

Modelling choices:

- Imperative source code is modelled imperatively. Tools, executors,
  adapters, the agent and the loader are classes. Their fields are the
  Python attributes they update, and their methods keep the source's loops.
  Each method is proved equal to a specification function, and lemmas
  state what those functions promise.
- Pure helpers are functions, with lemmas for their properties.
- The following are parameters, never computed:
  - the language model;
  - HTTP;
  - DynamoDB;
  - the file system;
  - JSON, CSV and HTML parsing;
  - time-zone conversion;
  - clocks.
- Confidences and quality scores are integer hundredths.

## Model

| member | source | states |
|---|---|---|
| BriefingGraph.Slice | closing_briefing/graph.py:431 | `s[i:j]` never grows the text, and is the plain slice when the bounds are in order |
| BriefingGraph.FindFirst | closing_briefing/graph.py:422-426 | the chained `find` gives -1 or a position within the report |
| BriefingGraph.ExplainItem | closing_briefing/graph.py:442-448 | the marker loop keeps the text after the first marker found, trimmed of dashes, or the whole text |
| BriefingGraph.ParseChecklistItem | closing_briefing/graph.py:435-454 | a checklist item gets its status from the markers and its explanation from the marker loop |
| BriefingGraph.ParseCriticalLines | closing_briefing/graph.py:489-499 | each critical line sets the check of the first topic it names, a later line overriding an earlier one |
| BriefingGraph.CollectLines | closing_briefing/graph.py:512-521 | the line loops keep, in order, what each stripped line contributes |
| BriefingGraph.HallucinationPick | closing_briefing/graph.py:514-521 | a line lists at most one hallucination |
| BriefingGraph.ChecklistPick | closing_briefing/graph.py:534-546 | a line gives at most one checklist item |
| BriefingGraph.SuggestionPick | closing_briefing/graph.py:581-586 | a line gives at most one suggestion |
| BriefingGraph.ShortfallCount | closing_briefing/graph.py:603 | the shortfall count never exceeds the checklist length |
| BriefingGraph.ParseChecks | closing_briefing/graph.py:456-499 | the critical checks are those the report sets, defaults elsewhere |
| BriefingGraph.ParseHallucinations | closing_briefing/graph.py:501-521 | the hallucination loop returns the hallucinations listed between the hallucination heading and the suggestion heading "### 구체적인 수정 제안" (or the next 1000 characters when there is none) |
| BriefingGraph.ParseChecklist | closing_briefing/graph.py:523-573 | the content checklist (up to the style heading) followed by the style checklist (up to the hallucination heading, else the suggestion heading) |
| BriefingGraph.ParseSuggestions | closing_briefing/graph.py:575-586 | the suggestion loop returns the non-empty dash or bullet lines after the heading "### 구체적인 수정 제안" |
| BriefingGraph.ParseCriticResponse | closing_briefing/graph.py:417-626 | the parser returns the feedback the report's sections define, graded |
| BriefingGraph.SeriousHasShortfall | closing_briefing/graph.py:437-440 | text with the serious marker also holds the plain shortfall marker |
| BriefingGraph.MarkedStatusRule | closing_briefing/graph.py:436-440 | a check's status is serious exactly with the serious marker and failed exactly with either shortfall marker |
| BriefingGraph.CollectedFrom | closing_briefing/graph.py:512-521 | everything collected was taken from one of the lines |
| BriefingGraph.CollectedAtMostLines | closing_briefing/graph.py:533-546 | at most one item per line is collected |
| BriefingGraph.HallucinationLines | closing_briefing/graph.py:514-521 | each hallucination comes from a dash line with an arrow in it |
| BriefingGraph.HallucinationsListed | closing_briefing/graph.py:502-521 | no section or the "none" marker means no hallucinations; each one comes from a dash line with an arrow |
| BriefingGraph.ChecklistStatuses | closing_briefing/graph.py:541 | checklist items are only "met" or "shortfall" |
| BriefingGraph.GradeRule | closing_briefing/graph.py:588-614 | the grade is severe exactly with two critical issues or a hallucination, excellent exactly with nothing wrong, and never improves when more is wrong |
| BriefingGraph.GradedNeedsRevision | closing_briefing/models.py:160-176 | feedback the parser grades needs revision exactly when a hallucination was found, a critical check falls short, or four checklist items do |
| BriefingGraph.SuggestionLines | closing_briefing/graph.py:580-586 | each collected suggestion is a non-empty dash or bullet line with its leading marks and spaces removed |
| BriefingGraph.SuggestionsListed | closing_briefing/graph.py:575-586 | no suggestion heading means no suggestions; each suggestion comes from a dash or bullet line |
| BriefingGraph.HallucinationSectionEnds | closing_briefing/graph.py:503-509 | when the suggestion heading follows the hallucination heading, the section is exactly the text between them |
| BriefingGraph.ParsedNeedsRevision | closing_briefing/graph.py:588-614 | any parsed report needs revision on those same terms |
| BriefingGraph.KeyFailures | closing_briefing/graph.py:724-730 | the key failures never exceed the checklist length |
| BriefingGraph.CheckNeedsRevisionRule | closing_briefing/graph.py:707-735 | the revision test is the feedback's own rule plus two failing key items, and its reason reads "quality met" exactly when no revision is needed |
| BriefingGraph.ContinueRevisionRule | closing_briefing/graph.py:738-759 | after the critic, revise exactly with a draft and feedback, the bound not passed, and the revision test holding |
| BriefingGraph.IterateRule | closing_briefing/graph.py:762-782 | after a revision the critic runs again only below the bound and for a hallucination or timeliness problem |
| BriefingGraph.ExtractKeywords | closing_briefing/graph.py:318-346 | the keyword loop returns the keywords of the script |
| BriefingGraph.ThemeScanFound | closing_briefing/graph.py:337-341 | the scan keeps at most three distinct keywords, each found in the script or already there |
| BriefingGraph.KeywordsShape | closing_briefing/graph.py:318-346 | one to three distinct keywords: themes that occur in the script, or the single default |
| BriefingGraph.AnswerCalls | closing_briefing/graph.py:165-195 | one reply per tool call of a round |
| BriefingGraph.RepliesMatchCalls | closing_briefing/graph.py:190-195 | each call of a round is answered, in order, by a reply carrying its id |
| BriefingGraph.AnswerToolCalls | closing_briefing/graph.py:165-197 | the inner loop returns the replies and references of the round and appends the references the executor logged |
| BriefingGraph.AfterNothing | closing_briefing/graph.py:142-143 | nothing gathered before a run leaves it unchanged |
| BriefingGraph.AfterAfter | closing_briefing/graph.py:177-185 | gathering in two stretches is gathering their concatenation |
| BriefingGraph.CallLlmWithTools | closing_briefing/graph.py:103-211 | the reply and references are those of the conversation, and the executor's log grows by what it logged |
| BriefingGraph.ToolRound | closing_briefing/graph.py:145-200 | one pass either ends with the reply or continues from the answered calls with the references gathered |
| BriefingGraph.RoundStep | closing_briefing/graph.py:157-200 | a raise or a reply without calls ends the conversation; calls continue it from the answered messages |
| BriefingGraph.ConverseLast | closing_briefing/graph.py:202-211 | with no rounds left one call without tools gives the reply |
| BriefingGraph.ExecutorLogsReturned | closing_briefing/tools.py:213-232 | every reference a tool result returns was logged by the executor |
| BriefingGraph.AnswersLogged | closing_briefing/graph.py:175-185 | every reference a round's results return was logged |
| BriefingGraph.ConverseBounds | closing_briefing/graph.py:145-211 | at most `max_tool_calls` rounds, a forced final call exactly when all are used, and only logged references returned |
| BriefingGraph.LoadedBriefingDate | closing_briefing/graph.py:235-238 | a set date is kept, else the summary's date, else today |
| BriefingGraph.ScriptWriterStep | closing_briefing/graph.py:252-315 | the writer leaves iterations, bound and feedback unchanged |
| BriefingGraph.CriticStep | closing_briefing/graph.py:349-414 | feedback comes with exactly one more iteration and only for a draft; no feedback leaves an error |
| BriefingGraph.RevisionWriterStep | closing_briefing/graph.py:629-700 | the revision keeps iterations, bound and feedback and only adds references |
| BriefingGraph.ScriptWriterNode | closing_briefing/graph.py:252-315 | the node returns the writer's step |
| BriefingGraph.CriticNode | closing_briefing/graph.py:349-414 | the node returns the critic's step |
| BriefingGraph.RevisionWriterNode | closing_briefing/graph.py:629-700 | the node returns the revision's step |
| BriefingGraph.RunGraph | closing_briefing/graph.py:789-832 | the walk over the nodes, edge by edge, is the workflow the edges define |
| BriefingGraph.RevisingBounds | closing_briefing/graph.py:738-782 | from a critique the loop revises at most once per iteration left, never passes the bound and keeps every reference |
| BriefingGraph.WorkflowBounds | closing_briefing/graph.py:789-832 | a run critiques at least once and at most once more than it revises, within the iteration bound |
| BriefingLoader.ParseIntStr | closing_briefing/data_loader.py:495-496 | `int()` reads back the decimal text of every integer, negative ones included |
| BriefingLoader.ImportanceRule | closing_briefing/data_loader.py:492-503 | an impact of 3 or more is high, exactly 2 medium, any other integer low, a missing or non-integer cell medium, and a greater impact never gives a lower importance |
| BriefingLoader.ImportanceOfInt | closing_briefing/data_loader.py:492-503 | the importance of an integer impact by its three bands |
| BriefingLoader.LowerAll | closing_briefing/data_loader.py:442 | the lowered tag list has one lowered entry per tag, in order |
| BriefingLoader.MentionsTagged | closing_briefing/data_loader.py:444-451 | "some listed word is among the lowered tags" is the same as "some tag lowers to a listed word" |
| BriefingLoader.CategoryPrecedence | closing_briefing/data_loader.py:440-451 | macro exactly when a macro tag is present, geopolitical when a geopolitical tag is and no macro tag, company and sector likewise down the list; more tags never give a lower category, and the same tag set gives the same category |
| BriefingLoader.TaggedSubset | closing_briefing/data_loader.py:440-451 | a tag list that contains all the tags of another is tagged by every word the other is |
| BriefingLoader.FirstKnownRule | closing_briefing/data_loader.py:465-474 | the scan gives "sector" exactly when the first known ticker is financial or energy, and otherwise "company" |
| BriefingLoader.TickerCategoryRule | closing_briefing/data_loader.py:453-474 | no tickers is "sector"; otherwise the first known ticker decides; a list with no known ticker is "company"; nothing else is returned |
| BriefingLoader.ZFill | closing_briefing/data_loader.py:263 | the filled text is as long as the width, or unchanged in length when already as long |
| BriefingLoader.ZFillDigits | closing_briefing/data_loader.py:263 | zero-filling a digit string gives a digit string of the same value that ends with the original |
| BriefingLoader.Parsed | closing_briefing/data_loader.py:253-278 | reading the file names never yields more events than files |
| BriefingLoader.ParsedExact | closing_briefing/data_loader.py:253-278 | each event comes from a file that parses, each parsing file gives its event, and all files parsing gives one event per file |
| BriefingLoader.ScraperMonthsKnown | closing_briefing/data_loader.py:246-261 | every month abbreviation the FOMC scraper writes is a key of the month map, so the January fallback is taken only for January |
| BriefingLoader.SplitThree | closing_briefing/data_loader.py:254-259 | a name of three underscore-free parts splits into exactly those three parts |
| BriefingLoader.SplitTwo | closing_briefing/data_loader.py:254-259 | a name of two underscore-free parts splits into exactly those two parts |
| BriefingLoader.AbbrevLetters | closing_briefing/data_loader.py:261 | a scraper month abbreviation is lower case, so lowering it changes nothing |
| BriefingLoader.MeetingIdParts | closing_briefing/data_loader.py:254-259 | a scraper meeting ID splits at `_` into year, month abbreviation and dates |
| BriefingLoader.FirstDateOf | closing_briefing/data_loader.py:262 | the first date of `D-E` is `D`, and of a single `D` is `D` |
| BriefingLoader.DatesLack | closing_briefing/data_loader.py:254-262 | the dates part of a meeting ID holds no underscore |
| BriefingLoader.MeetingIdDate | closing_briefing/data_loader.py:252-278 | a file named by the scraper's meeting ID reads back as `year-MM-DD`: the year written, the month of its abbreviation, the first day zero-filled to two digits with its value kept |
| BriefingLoader.Headlined | closing_briefing/data_loader.py:405-418 | the kept news is never longer than the scan |
| BriefingLoader.KeyLessOrder | closing_briefing/data_loader.py:421-424 | the (relevance, date) key comparison is a strict order |
| BriefingLoader.HeadlinedFrom | closing_briefing/data_loader.py:405-418 | each kept item has a headline and converts a scanned item, and every scanned item with a title is kept |
| BriefingLoader.DynamoNewsRule | closing_briefing/data_loader.py:349-438 | at most 30 items, none when the scan raises; sorted by key greatest first; a sub-multiset of the headlined items, all of them when there are at most 30, else 30; each with a headline, relevance 0.7 and converted from a scanned item |
| BriefingLoader.SortedNews | closing_briefing/data_loader.py:421-424 | the sort result is ordered greatest key first and is a permutation of its input |
| BriefingLoader.SortedNewsStable | closing_briefing/data_loader.py:421-424 | the items of each key keep their scan order through the sort |
| BriefingLoader.DynamoNewsCutoff | closing_briefing/data_loader.py:421-427 | a headlined item left out by the 30-item cut never has a greater key than an item kept |
| BriefingLoader.DynamoNewsStable | closing_briefing/data_loader.py:421-427 | the listed items of one key are the first items of that key in scan order |
| BriefingLoader.DynamoNewsLatestFirst | closing_briefing/data_loader.py:413-427 | all items share one relevance, so the list is by publication time, latest first |
| BriefingLoader.EmptySources | closing_briefing/data_loader.py:506-515 | the six source keys, each empty: an empty object for the market summary and an empty list for the rest |
| BriefingLoader.AsMap | closing_briefing/data_loader.py:294-299 | a dict built from distinct-key pairs has exactly their keys, each with its value |
| BriefingLoader.FillFrom | closing_briefing/data_loader.py:96-98 | the merge holds the keys of both, taking the loaded value exactly where the current one is missing or falsy |
| BriefingLoader.FillMissingRule | closing_briefing/data_loader.py:96-98 | a truthy value is never replaced, every missing or falsy key given is filled, and nothing else changes |
| BriefingLoader.FillFromIdempotent | closing_briefing/data_loader.py:96-98 | merging the same dict twice is merging it once |
| BriefingLoader.FillMissingIdempotent | closing_briefing/data_loader.py:96-98 | merging the same loaded pairs twice is merging them once |
| BriefingLoader.FillMissingStep | closing_briefing/data_loader.py:96-98 | one loop step merges one more pair into what the earlier steps merged |
| BriefingLoader.MergeMissing | closing_briefing/data_loader.py:96-98 | the loop's result is the merge of the loaded pairs into the sources |
| BriefingLoader.Meetings | closing_briefing/data_loader.py:265-277 | one event entry per FOMC event, in order |
| BriefingLoader.Articles | closing_briefing/data_loader.py:405-419 | one article entry per news item, in order |
| BriefingLoader.TeData | closing_briefing/data_loader.py:143-162 | the TE scraper data has distinct keys among calendar events, macro data and FOMC events |
| BriefingLoader.JsonLoaded | closing_briefing/data_loader.py:294-299 | no more entries than mapped files |
| BriefingLoader.JsonLoadedSpec | closing_briefing/data_loader.py:283-329 | each entry comes from a mapped file that was read, each file read gives its entry, and distinct keys in the mapping give a dict |
| BriefingLoader.MappingsOfSources | closing_briefing/data_loader.py:288-317 | the `processed` and root file mappings map to distinct source keys |
| BriefingLoader.BundleSources | closing_briefing/data_loader.py:331-347 | the six source keys taken from the bundle with their defaults, or the empty sources when the bundle cannot be read |
| BriefingLoader.TeDataShape | closing_briefing/data_loader.py:143-162 | the TE scraper data only uses source keys and never supplies news |
| BriefingLoader.JsonLoadedShape | closing_briefing/data_loader.py:283-329 | JSON file data only uses source keys, and supplies news only when a mapping names it |
| BriefingLoader.ShapeOf | closing_briefing/data_loader.py:63-130 | what a source path yields is well formed |
| BriefingLoader.KeyedMerge | closing_briefing/data_loader.py:86-108 | updating or merging with source-keyed data keeps exactly the source keys |
| BriefingLoader.Gathered | closing_briefing/data_loader.py:78-108 | the scraper outputs produce exactly the source keys |
| BriefingLoader.WithNews | closing_briefing/data_loader.py:111-119 | adding news keeps the keys |
| BriefingLoader.ClosingBriefingDataLoader.constructor | closing_briefing/data_loader.py:36-61 | the loader keeps its path and DynamoDB flag, with an empty cache |
| BriefingLoader.ClosingBriefingDataLoader.LoadAllSources | closing_briefing/data_loader.py:63-141 | the sources are those assembled from the path and the scan, and the cache holds them |
| BriefingLoader.ClosingBriefingDataLoader.LoadScraperOutputs | closing_briefing/data_loader.py:78-108 | the scraper output at the root, then `te_scraper_output` and `processed`, merged into the empty sources |
| BriefingLoader.ClosingBriefingDataLoader.MergeNews | closing_briefing/data_loader.py:111-119 | DynamoDB news when enabled, then `economic_news`, each only while there is no news |
| BriefingLoader.ClosingBriefingDataLoader.LoadFromTeScraper | closing_briefing/data_loader.py:143-162 | the result is the TE scraper data of the directories found |
| BriefingLoader.ClosingBriefingDataLoader.LoadFomcMetadata | closing_briefing/data_loader.py:241-281 | one event per PDF name with three parts or more, in name order |
| BriefingLoader.ClosingBriefingDataLoader.LoadJsonFiles | closing_briefing/data_loader.py:283-329 | the loop's result is the entries of the mapped files that were read |
| BriefingLoader.ClosingBriefingDataLoader.LoadNewsFromDynamodb | closing_briefing/data_loader.py:349-438 | the loop's result is the DynamoDB news list |
| BriefingLoader.ClosingBriefingDataLoader.CategorizeNewsByTickers | closing_briefing/data_loader.py:453-474 | the loop's result is the ticker category |
| BriefingLoader.ClosingBriefingDataLoader.GetCachedData | closing_briefing/data_loader.py:517-519 | the cached sources are returned |
| BriefingLoader.FirstOfferWins | closing_briefing/data_loader.py:63-130 | from an empty value, the result is non-empty exactly when some location offers a non-empty value, and then it is the first such value |
| BriefingLoader.SomeOfferTruthy | closing_briefing/data_loader.py:63-130 | the result is non-empty exactly when some location offers a non-empty value |
| BriefingLoader.FirstOfferTaken | closing_briefing/data_loader.py:63-130 | the first location offering a non-empty value supplies the result |
| BriefingLoader.TruthyStays | closing_briefing/data_loader.py:96-98 | a non-empty value is never overwritten by later locations |
| BriefingLoader.AssembledKeys | closing_briefing/data_loader.py:63-130 | every path produces exactly the six source keys |
| BriefingLoader.BundleReplaces | closing_briefing/data_loader.py:121-123 | with a JSON bundle the result is the bundle's sources, the empty sources when unreadable, whatever DynamoDB returns |
| BriefingLoader.OtherPathSources | closing_briefing/data_loader.py:78-113 | a path that is neither directory nor bundle gives the empty sources, with DynamoDB news when enabled |
| BriefingLoader.FillAt | closing_briefing/data_loader.py:96-98 | merging at one key is consulting the value offered there |
| BriefingLoader.UpdateAt | closing_briefing/data_loader.py:86-88 | updating at one key takes the value offered there |
| BriefingLoader.GatheredAt | closing_briefing/data_loader.py:78-108 | the gathered value at a key is the first of the scraper output, `te_scraper_output` and `processed` to offer one |
| BriefingLoader.WithNewsAt | closing_briefing/data_loader.py:111-130 | the news steps and root files continue the same chain of offers at every key |
| BriefingLoader.DirectoryPrecedence | closing_briefing/data_loader.py:63-130 | for a directory every key holds the value of the first location offering a non-empty one, in the order scraper output, `te_scraper_output`, `processed`, DynamoDB, `economic_news`, root files |
| BriefingLoader.AfterAllSix | closing_briefing/data_loader.py:63-130 | the chain of six offers unfolds into its six steps |
| BriefingLoader.NewsPrecedence | closing_briefing/data_loader.py:111-130 | news is DynamoDB's when enabled and non-empty, else `economic_news`, else `news_data.json`; it is empty exactly when none of them offers any |
| BriefingLoader.LaterOffers | closing_briefing/data_loader.py:111-130 | when the first three offer nothing, the fourth, fifth or sixth non-empty offer decides |
| BriefingLoader.NewsOffers | closing_briefing/data_loader.py:143-162 | the scraper outputs and `processed` never offer news; DynamoDB, `economic_news` and the root files do |
| BriefingLoader.LookupAbsent | closing_briefing/data_loader.py:143-162 | a key the data never holds is looked up as absent |
| BriefingModels.CitationTag | closing_briefing/models.py:76-82 | the tag starts with the source type and quoted quote, ends with `]`, and shows ` - provider` in between exactly when the provider is non-empty |
| BriefingModels.CitationTagShowsProvider | closing_briefing/models.py:76-82 | two references that differ only in a provider, one of them set, get different tags |
| BriefingModels.ReasonList | closing_briefing/models.py:179-195 | the revision reasons are listed in a fixed order, and there is one exactly when the feedback needs revision |
| BriefingModels.RevisionReasonIff | closing_briefing/models.py:160-195 | the "quality criteria met" text comes back exactly when no revision is needed; otherwise the text starts with the first reason |
| BriefingModels.InitialState | closing_briefing/models.py:199-306 | a fresh graph state has no draft, feedback or revision, no references or keywords, 0 iterations and a bound of 1 |
| BriefingModels.NewBriefingConfig | closing_briefing/models.py:314-333 | a configuration is accepted exactly when its iteration bound lies in 1..10, and keeps its path and bound |
| BriefingTools.Lookup | closing_briefing/tools.py:243 | `record.get(key, default)` gives the stored value when the key is present and the default otherwise |
| BriefingTools.MakeRef | closing_briefing/tools.py:213-232 | a reference keeps its type, file, quote and provider, and its date falls back to the briefing date when empty |
| BriefingTools.Reported | closing_briefing/tools.py:258-274 | a reported item keeps the record's fields and carries a reference |
| BriefingTools.Emit | closing_briefing/tools.py:242-274 | a handler reports at most one item per record |
| BriefingTools.RefsOf | closing_briefing/tools.py:274 | at most one reference per item |
| BriefingTools.RefsOfAppend | closing_briefing/tools.py:580-581 | the references of two item lists concatenate |
| BriefingTools.RefsOfReferenced | closing_briefing/tools.py:266-274 | items that all carry a reference give exactly one each, in order |
| BriefingTools.EmitFrom | closing_briefing/tools.py:242-274 | every item reported was kept from some record |
| BriefingTools.EmitEmpty | closing_briefing/tools.py:242-276 | nothing is reported exactly when no record is kept |
| BriefingTools.EmitPrefix | closing_briefing/tools.py:354-397 | reporting over more records only extends what was reported |
| BriefingTools.EmitDrafted | closing_briefing/tools.py:242-274 | one more record adds its item, when kept, at the end |
| BriefingTools.TakeEmitted | closing_briefing/tools.py:396-397 | once the first records have reported `n` items, the first `n` items are theirs |
| BriefingTools.TakeReached | closing_briefing/tools.py:354-397 | wherever the capped loop stops, with `n` items or with the whole list read below `n`, its items are the first `n` reported items |
| BriefingTools.Take | closing_briefing/tools.py:546 | `s[:n]` is a prefix of at most `n` items, all of them when there are fewer |
| BriefingTools.PySliceTo | closing_briefing/tools.py:354 | `s[:k]` is a prefix; a negative `k` drops that many items from the end |
| BriefingTools.AnyNameInIff | closing_briefing/tools.py:246 | a request matches exactly when some requested name is a case-insensitive substring of the indicator's name |
| BriefingTools.MacroEntry | closing_briefing/tools.py:242-271 | an indicator is reported exactly when its name is requested; it shows the record's name, value, unit, date and `meta`, with None for a missing value and `{}` for a missing `meta` |
| BriefingTools.CalendarEntry | closing_briefing/tools.py:293-327 | an event is reported exactly when it passes the importance filter and lies in the date window |
| BriefingTools.NewsEntry | closing_briefing/tools.py:354-392 | an article is reported exactly when it has a headline and passes the category filter; it shows the article's text fields, its `source` as the provider, and its tags and tickers |
| BriefingTools.EarningsEntry | closing_briefing/tools.py:410-476 | a result is reported exactly when it matches the sector (ignoring case) and, with `beat_only`, beat; it shows the record's company, ticker, EPS and revenue figures, growth, verdict, sector, key drivers and stock reaction (None for a missing number, `[]` for missing drivers) and the formatted revenue |
| BriefingTools.FomcEntry | closing_briefing/tools.py:489-516 | every meeting is reported |
| BriefingTools.IndexQuotes | closing_briefing/tools.py:534-540 | at most one quote per index, only for indices that are objects |
| BriefingTools.Copied | closing_briefing/tools.py:551-559 | a copied record has exactly the listed keys present in the source, with their values |
| BriefingTools.SummaryData | closing_briefing/tools.py:551-562 | the summary has the date (defaulting to the briefing date), the indices, each figure the source has, and the sectors exactly when asked |
| BriefingTools.ConcatStep | closing_briefing/tools.py:577-581 | one more record's gathering is added at the end |
| BriefingTools.MacroMatch | closing_briefing/tools.py:577-581 | the macro pass returns exactly the references it creates |
| BriefingTools.MacroMatches | closing_briefing/tools.py:577-581 | one gathering per indicator |
| BriefingTools.MacroMatchesAt | closing_briefing/tools.py:577-581 | the i-th gathering is that of the i-th indicator |
| BriefingTools.SearchNews | closing_briefing/tools.py:584-606 | the news pass returns one created reference per reported article |
| BriefingTools.FirstEarningsHit | closing_briefing/tools.py:615-619 | the first reported earnings item whose company or ticker contains the query, or none when no item does |
| BriefingTools.EarningsMatch | closing_briefing/tools.py:609-619 | a record of the earnings pass returns nothing or every reference the run created |
| BriefingTools.EarningsMatches | closing_briefing/tools.py:609-619 | one gathering per record, in order |
| BriefingTools.SearchCalendar | closing_briefing/tools.py:622-638 | the calendar pass returns one created reference per reported event |
| BriefingTools.Respond | closing_briefing/tools.py:182-211 | an unknown tool fails with its name, and a failed call logs nothing |
| BriefingTools.MacroForName | closing_briefing/tools.py:579 | the search's macro call with one name is the macro tool for that name |
| BriefingTools.EarningsForAll | closing_briefing/tools.py:614 | the search's earnings call with no sector is the earnings tool without filters |
| BriefingTools.SearchAllParts | closing_briefing/tools.py:566-640 | a non-empty query gathers the macro, news, earnings and calendar passes in that order |
| BriefingTools.OfTypeAbsent | closing_briefing/tools.py:654-659 | a type that never appears has no references |
| BriefingTools.QuotesSnoc | closing_briefing/tools.py:674-679 | one more reference adds its quote to the seen quotes |
| BriefingTools.FirstQuotes | closing_briefing/tools.py:674-686 | the survivors of `seen_quotes` cover every quote of the group and come from it |
| BriefingTools.RefLines | closing_briefing/tools.py:681-686 | one line per reference, in order |
| BriefingTools.ItemTexts | closing_briefing/tools.py:708-721 | one text per item, in order |
| BriefingTools.FormatToolResultForLlm | closing_briefing/tools.py:693-727 | the loop builds the text the result defines |
| BriefingTools.TypeOrderSnoc | closing_briefing/tools.py:655-659 | one more reference adds its type to the group order when it is new |
| BriefingTools.OfTypeSnoc | closing_briefing/tools.py:655-659 | one more reference joins the end of its type's group |
| BriefingTools.GroupsLinesStep | closing_briefing/tools.py:670-688 | one more group adds its lines at the end |
| BriefingTools.GroupByType | closing_briefing/tools.py:654-659 | the grouping keeps the types in order of first appearance, each with its references in log order |
| BriefingTools.GroupText | closing_briefing/tools.py:670-688 | a group is its heading, one line per first occurrence of a quote, and a blank line |
| BriefingTools.EmitReferenced | closing_briefing/tools.py:258-274 | every reported item carries the reference created for it |
| BriefingTools.EmitSource | closing_briefing/tools.py:242-274 | each reported item comes from a kept record and is its draft with the reference |
| BriefingTools.EmitKeepsAll | closing_briefing/tools.py:489-516 | a rule that keeps every record reports every record |
| BriefingTools.MacroReportsRequested | closing_briefing/tools.py:234-276 | every indicator reported has a requested name, and an empty request reports all |
| BriefingTools.CalendarItemsFiltered | closing_briefing/tools.py:293-338 | every event reported has the requested importance and lies in the date window |
| BriefingTools.CalendarSorted | closing_briefing/tools.py:340-343 | the events come back ordered by date, a reordering of those reported, one logged reference each |
| BriefingTools.NewsBounded | closing_briefing/tools.py:354-399 | at most `limit` articles (one for a non-positive limit), each with a headline and the category, from the first `2 * limit` only |
| BriefingTools.NewsFilterFields | closing_briefing/tools.py:355-364 | a reported article shows a non-empty headline and a category the filter passes |
| BriefingTools.EarningsFilterFields | closing_briefing/tools.py:411-419 | a reported result shows the verdict and sector the filters tested |
| BriefingTools.EarningsFiltered | closing_briefing/tools.py:410-479 | with `beat_only` every result beat, with a sector every result is in it, without either every result is reported |
| BriefingTools.FomcSorted | closing_briefing/tools.py:489-521 | every meeting, latest first, one logged reference each |
| BriefingTools.PlusRecorded | closing_briefing/tools.py:580-581 | joining two gatherings keeps every returned reference created |
| BriefingTools.ConcatRecorded | closing_briefing/tools.py:576-638 | a whole pass returns only references it created |
| BriefingTools.SearchRecorded | closing_briefing/tools.py:566-640 | every reference a search returns was created by it |
| BriefingTools.SearchEarningsRunsAll | closing_briefing/tools.py:613-619 | a matching record runs the earnings tool over every record, logging a reference for each, yet reports at most one item |
| BriefingTools.ReturnedAreLogged | closing_briefing/tools.py:182-211 | every reference a tool call returns is one it appended to the log; any tool but the search returns exactly what it appended |
| BriefingTools.EmptyQueryFindsNothing | closing_briefing/tools.py:568-571 | an empty query finds nothing and logs nothing |
| BriefingTools.UnknownToolLogsNothing | closing_briefing/tools.py:203-204 | an unknown tool name fails with that name and logs nothing |
| BriefingTools.TypeOrderExact | closing_briefing/tools.py:654-670 | the groups hold each logged source type once and no other |
| BriefingTools.OfTypeMembers | closing_briefing/tools.py:655-659 | a group holds exactly the logged references of its type |
| BriefingTools.FirstQuotesDistinct | closing_briefing/tools.py:674-679 | within a group no quote is listed twice |
| BriefingTools.EveryReferenceListed | closing_briefing/tools.py:646-690 | every logged reference has its quote listed under its type's heading |
| BriefingTools.ReferencesTextEmpty | closing_briefing/tools.py:646-651 | the section is empty exactly when nothing was logged, and otherwise opens with its header |
| BriefingTools.SourceTagMirrorsCitation | closing_briefing/tools.py:713-716 | the source tag shown to the model carries the same text as the citation tag it must write |
| BriefingTools.ToolResultTextShape | closing_briefing/tools.py:695-717 | an error reads "Error: …", and a list opens with its first item, tag first when cited |
| BriefingTools.DataToolExecutor.constructor | closing_briefing/tools.py:168-180 | the executor keeps its sources, dates itself today when no date is set, and starts with an empty log |
| BriefingTools.DataToolExecutor.CreateReference | closing_briefing/tools.py:213-232 | the reference is built and appended to the log |
| BriefingTools.DataToolExecutor.Report | closing_briefing/tools.py:258-274 | a draft is reported with a new reference, which is appended to the log |
| BriefingTools.DataToolExecutor.ReportEach | closing_briefing/tools.py:242-274 | the list loop reports each kept record in order and logs their references |
| BriefingTools.DataToolExecutor.ReportUpTo | closing_briefing/tools.py:354-397 | the news loop stops once `limit` items are reported |
| BriefingTools.DataToolExecutor.GetMacroIndicators | closing_briefing/tools.py:234-276 | the handler's result and log are the macro outcome |
| BriefingTools.DataToolExecutor.GetCalendarEvents | closing_briefing/tools.py:278-343 | the handler's result and log are the calendar outcome |
| BriefingTools.DataToolExecutor.GetNewsArticles | closing_briefing/tools.py:345-399 | the handler's result and log are the news outcome |
| BriefingTools.DataToolExecutor.GetEarningsResults | closing_briefing/tools.py:401-479 | the handler's result and log are the earnings outcome |
| BriefingTools.DataToolExecutor.GetFomcEvents | closing_briefing/tools.py:481-521 | the handler's result and log are the FOMC outcome |
| BriefingTools.DataToolExecutor.GetMarketSummary | closing_briefing/tools.py:523-564 | the handler's result and log are the summary outcome |
| BriefingTools.DataToolExecutor.MacroPassOne | closing_briefing/tools.py:578-581 | one indicator of the macro pass gathers what the macro match defines |
| BriefingTools.DataToolExecutor.EarningsPassOne | closing_briefing/tools.py:613-619 | one record of the earnings pass gathers what the earnings match defines |
| BriefingTools.DataToolExecutor.SearchMacroPass | closing_briefing/tools.py:576-581 | the macro loop gathers the macro pass |
| BriefingTools.DataToolExecutor.SearchNewsPass | closing_briefing/tools.py:583-606 | the news loop gathers the news pass |
| BriefingTools.DataToolExecutor.FirstHit | closing_briefing/tools.py:615-619 | the inner loop finds the first matching item |
| BriefingTools.DataToolExecutor.SearchEarningsPass | closing_briefing/tools.py:608-619 | the earnings loop gathers the earnings pass |
| BriefingTools.DataToolExecutor.SearchCalendarPass | closing_briefing/tools.py:621-638 | the calendar loop gathers the calendar pass |
| BriefingTools.DataToolExecutor.SearchData | closing_briefing/tools.py:566-640 | the search's result and log are the search outcome |
| BriefingTools.DataToolExecutor.ExecuteTool | closing_briefing/tools.py:182-211 | dispatch by name; the result and log are the outcome of the named tool |
| BriefingTools.DataToolExecutor.FormatReferencesForOutput | closing_briefing/tools.py:646-690 | the text is the log grouped by source type, each quote once per group |
| BriefingTools.DataToolExecutor.AllReferences | closing_briefing/tools.py:642-644 | the references used are the log |
| CalendarMain.DayStart | te_calendar_scraper/main.py:41 | the start of the day holding t is a multiple of a day, at most t and less than a day before it |
| CalendarMain.DateWindowKst | te_calendar_scraper/main.py:37-43 | the window starts at midnight of the day seven days back and ends at 23:59:59 of the day seven days ahead |
| CalendarMain.DateWindowSpan | te_calendar_scraper/main.py:37-43 | the window holds "now" and spans fifteen calendar days less one second |
| CalendarMain.FilterRows | te_calendar_scraper/main.py:46-70 | the loop with its three `continue` guards returns exactly `Filtered` for the window of "now" |
| CalendarMain.FilteredMembers | te_calendar_scraper/main.py:50-69 | a record is in the output iff it is the output record of an input row whose country is empty or the configured country, whose impact is missing, zero or allowed, and whose KST time (given, or converted from UTC) lies in the window |
| CalendarMain.FilteredInOrder | te_calendar_scraper/main.py:49-70 | the output keeps the input order: it is a subsequence of the converted rows |
| CalendarMain.ParseModeRoundTrip | te_calendar_scraper/main.py:296-298 | each of the six modes is accepted under its own name and only those names are accepted |
| DatePatterns.MonthAt | te_calendar_scraper/scraper/fomc_scraper.py:204-205 | a month alternative matched ignoring case gives a month number 1..12 and ends before a whitespace character, as the following `\s+` requires |
| DatePatterns.SpaceRunEnd | te_calendar_scraper/scraper/fomc_scraper.py:203-206 | the greedy whitespace run stops at the end of the text or at a non-space character |
| DatePatterns.SpaceRunSkipsSpace | te_calendar_scraper/scraper/fomc_scraper.py:203-206 | every character the whitespace run consumes is whitespace |
| DatePatterns.DayAt | te_calendar_scraper/scraper/fomc_scraper.py:206 | one or two digits then a comma give a day of at most 99 and a position past the comma |
| DatePatterns.Year4At | te_calendar_scraper/scraper/fomc_scraper.py:207 | four digits give a non-negative year |
| DatePatterns.SearchFrom | te_calendar_scraper/scraper/fomc_scraper.py:211 | the search finds nothing exactly when the pattern matches at no position; otherwise it returns the match at the leftmost matching position |
| DatePatterns.SearchValid | te_calendar_scraper/scraper/fomc_scraper.py:211-227 | a date is returned only when the groups of the search form a valid calendar date, as `datetime(year, month, day)` demands |
| DatePatterns.DateTextMatches | te_calendar_scraper/scraper/fomc_scraper.py:201-208 | a date printed as "January 29, 2025" matches the generic pattern as that date wherever it stands |
| DatePatterns.ReleasedTextMatches | te_calendar_scraper/scraper/fomc_scraper.py:201-215 | "Released " followed by a printed date is found by the search as that date, whatever follows |
| DatePatterns.GenericTextMatches | te_calendar_scraper/scraper/fomc_scraper_new.py:448-464 | a printed date at the start of a text is read back by the generic pattern as that date |
| Dedupe.KeyOf | te_calendar_scraper/io/dedupe.py:16 | the key has one entry per key column: the row's value where the column is present, None where it is missing |
| Dedupe.DedupeByKey | te_calendar_scraper/io/dedupe.py:8-21 | the loop over rows with its set of seen keys returns exactly the rows the scan keeps (`Deduped`): a row is kept when no earlier kept row has its key |
| Dedupe.DedupedIsSubsequence | te_calendar_scraper/io/dedupe.py:15-20 | the output is the input with rows removed, order kept |
| Dedupe.DedupedDistinct | te_calendar_scraper/io/dedupe.py:17-19 | no two output rows share a composite key |
| Dedupe.DedupedKeySet | te_calendar_scraper/io/dedupe.py:15-20 | the output's keys are exactly the input's keys |
| Dedupe.DedupedKeepsFirst | te_calendar_scraper/io/dedupe.py:15-20 | every output row is the first input row that carries its key |
| Dedupe.DedupedOfDistinct | te_calendar_scraper/io/dedupe.py:15-20 | rows whose keys are already distinct come back unchanged |
| Dedupe.DedupedIdempotent | te_calendar_scraper/io/dedupe.py:8-21 | deduplicating twice gives the same rows as once |
| EventFilters.AssignBuckets | te_calendar_scraper/filters/event_filters.py:24-35 | a name is returned iff some bucket of that name has a keyword occurring in the lower-cased title (`None` read as empty) |
| EventFilters.AssignBucketsInOrder | te_calendar_scraper/filters/event_filters.py:30-34 | the names come back in bucket order, as a subsequence of the bucket names |
| EventFilters.AssignBucketsDistinct | te_calendar_scraper/filters/event_filters.py:30-34 | with distinct bucket names no name is returned twice |
| EventFilters.EmptyTitleNoBuckets | te_calendar_scraper/filters/event_filters.py:29-34 | a None or empty title falls in no bucket whose keywords are all non-empty |
| EventFilters.EmptyTitleNoDefaultBuckets | te_calendar_scraper/filters/event_filters.py:15-21 | an empty title falls in none of the default buckets |
| EventFilters.DefaultBucketsDistinct | te_calendar_scraper/filters/event_filters.py:15-21 | with the default buckets every returned name is one of CPI, EIA, ISM, FOMC, Bonds, and none twice |
| FomcFilenames.MonthKeyOf | te_calendar_scraper/test_fomc_filenames.py:26 | the month key never contains a slash |
| FomcFilenames.MonthKeyOfSplit | te_calendar_scraper/test_fomc_filenames.py:26 | a month without a slash is its own key, and "a/b" is keyed by "a" |
| FomcFilenames.SplitMonthUsesFirst | te_calendar_scraper/test_fomc_filenames.py:17-31 | a split month gets the same meeting ID as its first month alone |
| FomcFilenames.MeetingIdIgnoresOtherFields | te_calendar_scraper/test_fomc_filenames.py:17-31 | two meetings with the same year, month and dates get the same ID, whatever their type and links |
| FomcFilenames.MeetingMonthAbbrIsPrefix | te_calendar_scraper/test_fomc_filenames.py:19-27 | the abbreviation is always the lowered first three letters of the key, from the table or from the fallback |
| FomcFilenames.JanuaryMeetingId | te_calendar_scraper/test_fomc_filenames.py:33-50 | the January 28-29, 2025 meeting gets "2025_jan_28-29" |
| FomcFilenames.SplitMonthMeetingId | te_calendar_scraper/test_fomc_filenames.py:71-85 | the Apr/May 30-1, 2024 meeting gets "2024_apr_30-1", which does not contain "may" |
| FomcFilenames.NotationVoteMeetingId | te_calendar_scraper/test_fomc_filenames.py:93-105 | the August 27, 2020 notation vote gets "2020_aug_27" |
| FomcScraper.ParseReleaseDate | te_calendar_scraper/scraper/fomc_scraper.py:192-229 | any date returned is a valid calendar date, and there is none when the text has no "Released Month D, YYYY" match |
| FomcScraper.ParseReleaseDateReadsRelease | te_calendar_scraper/scraper/fomc_scraper.py:201-226 | "Released " followed by a date printed as "Month D, YYYY" and any text reads back as that date |
| FomcScraper.Eligibles | te_calendar_scraper/scraper/fomc_scraper.py:380-386 | exactly the meetings with a PDF URL and a release date, drawn from the input |
| FomcScraper.SelectRecentTranscripts | te_calendar_scraper/scraper/fomc_scraper.py:380-392 | the selection holds all eligible transcripts, or ten when there are more |
| FomcScraper.SelectRecentTranscriptsEligible | te_calendar_scraper/scraper/fomc_scraper.py:380-392 | every selected transcript has a PDF URL and a release date and comes from the input |
| FomcScraper.SelectRecentTranscriptsSorted | te_calendar_scraper/scraper/fomc_scraper.py:388-389 | the selected transcripts come newest release first |
| FomcScraper.SelectRecentTranscriptsNewest | te_calendar_scraper/scraper/fomc_scraper.py:388-392 | no eligible transcript left out was released after one that was kept |
| FomcScraper.MonthAbbrIsPrefix | te_calendar_scraper/scraper/fomc_scraper.py:425-430 | the abbreviation table agrees with its fallback: the abbreviation is always the lower-cased first three letters |
| FomcScraper.PdfStep | te_calendar_scraper/scraper/fomc_scraper.py:421-431 | one more transcript adds one to the count and its file name to the names exactly when it has a PDF URL |
| FomcScraper.DownloadRecentTranscripts | te_calendar_scraper/scraper/fomc_scraper.py:406-458 | downloaded + skipped + failed is the number of transcripts with a PDF URL; files are only added, and only the transcripts' own file names |
| FomcScraper.DownloadOne | te_calendar_scraper/scraper/fomc_scraper.py:421-452 | a transcript without a PDF URL counts nothing; one whose file exists is skipped; otherwise downloaded iff the fetch saves a non-empty file, failed otherwise, and the file is left on disk unless the fetch raised |
| FomcScraperNew.GetFinalMinutesHtmlUrl | te_calendar_scraper/scraper/fomc_scraper_new.py:64-78 | a non-empty press-conference minutes link wins; otherwise the calendar minutes link is returned exactly when it contains ".html" in any case; any result is one of the two links and non-empty |
| FomcScraperNew.ParseReleaseDate | te_calendar_scraper/scraper/fomc_scraper_new.py:416-480 | a valid calendar date; none exactly when neither the "Released Month D, YYYY" form nor the bare "Month D, YYYY" form yields a valid date |
| FomcScraperNew.ParseReleaseDateExtendsReleasedForm | te_calendar_scraper/scraper/fomc_scraper_new.py:425-446 | whenever the older scraper's parser reads a date, this parser reads the same date (the "Released" form is tried first) |
| FomcScraperNew.ParseReleaseDateReadsBareDate | te_calendar_scraper/scraper/fomc_scraper_new.py:448-478 | a printed date without "Released" reads back as that date when no release line matches |
| FomcScraperNew.FallbackUrl | te_calendar_scraper/scraper/fomc_scraper_new.py:677-688 | the page to follow is the statement link, else the first other material, else the minutes link; an empty choice means none |
| FomcScraperNew.CollectPdfUrls | te_calendar_scraper/scraper/fomc_scraper_new.py:702-709 | the result has no duplicates and holds exactly the joined URLs of the hrefs containing ".pdf" in any case |
| FomcScraperNew.AddMissing | te_calendar_scraper/scraper/fomc_scraper_new.py:712-714 | the existing list stays a prefix; the result holds exactly the existing and the new URLs; no duplicates come in when neither list has any |
| FomcScraperNew.FirstHeadingDate | te_calendar_scraper/scraper/fomc_scraper_new.py:721-727 | a date comes from some heading; none exactly when no heading yields a date |
| FomcScraperNew.EnrichMeetingFromFallback | te_calendar_scraper/scraper/fomc_scraper_new.py:665-736 | with no page to follow or a failed request the material is unchanged; otherwise the page URL is recorded, the PDF links are appended without losing the old ones, the release date comes from the page text else the first dated heading, and no other field changes |
| FomcScraperNew.Dated | te_calendar_scraper/scraper/fomc_scraper_new.py:792 | the result holds exactly the meetings with a release date |
| FomcScraperNew.InMonthsPermutation | te_calendar_scraper/scraper/fomc_scraper_new.py:815-821 | keeping the meetings of given months from two orderings of the same meetings keeps the same meetings |
| FomcScraperNew.FilterRecent10Months | te_calendar_scraper/scraper/fomc_scraper_new.py:779-828 | without dated meetings the input comes back; otherwise only dated meetings, newest first, at most ten release months, every dated meeting of a kept month, and a left-out dated meeting is older than all ten kept months |
| FomcScraperNew.RecentMonths | te_calendar_scraper/scraper/fomc_scraper_new.py:803-813 | the months seen are those of the meetings walked, at most ten; the walk stops only at an eleventh distinct month |
| FomcScraperNew.KeepMonths | te_calendar_scraper/scraper/fomc_scraper_new.py:815-821 | the result is the sorted meetings whose month was seen, in order |
| FomcScraperNew.FilterRecentFacts | te_calendar_scraper/scraper/fomc_scraper_new.py:791-828 | from the two passes: the result's months are exactly the months seen, and the result has the properties FilterRecent10Months promises |
| FomcScraperNew.LeftOutIsOlder | te_calendar_scraper/scraper/fomc_scraper_new.py:803-813 | a meeting before the cut of the first pass has a month that was kept |
| IndicatorsDom.Xor | te_calendar_scraper/scraper/indicators_dom.py:169-170 | byte i of the result is byte i of the payload XOR key byte i mod the key length; an empty key fails exactly when the payload is non-empty |
| IndicatorsDom.XorInvolution | te_calendar_scraper/scraper/indicators_dom.py:168-171 | with a non-empty key, de-obfuscating twice gives the payload back |
| IndicatorsDom.FetchSeries | te_calendar_scraper/scraper/indicators_dom.py:178-214 | exactly one outcome: request-error iff the request raised, decode-error iff decoding gave nothing or an empty list, empty-series iff the first element has no or an empty series list, missing-serie iff its first entry has no serie, otherwise that serie |
| IndicatorsDom.ComputeDayChange | te_calendar_scraper/scraper/indicators_dom.py:228-238 | raises only for a daily series with two or more points: IndexError iff the last or second-to-last point is empty, ValueError iff both first cells are non-null and one is not a number `float()` accepts; a change is reported only for two numeric first cells and is their difference |
| IndicatorsDom.ExtractLatestRow | te_calendar_scraper/scraper/indicators_dom.py:241-291 | raises iff the fetch succeeds and the day change raises, with that exception; a failed fetch gives the error row (all values None, note "symbol=…; <error>"); otherwise target fields copied, no month or year change, the day change and unit of the series, the latest value is the formatted cell 0 of the last point (None when there is none), and the observation date is cell 3 of the last point exactly when that point has four cells |
| IndicatorsDom.CollectIndicators | te_calendar_scraper/scraper/indicators_dom.py:299-306 | returns iff no target's extraction raises, then one row per target in order; otherwise the exception of the first target that raises |
| IndicatorsDom.CollectAllIndicatorsShape | te_calendar_scraper/scraper/indicators_dom.py:152-157 | collecting all targets gives 16 rows, row i naming target i, the first four CPI and the last three ISM |
| InvestmentValidator.NewsById | validation_agent/investment_briefing_validator.py:133-138 | none exactly when no article has the id; otherwise an article with that id |
| InvestmentValidator.FilingsByForm | validation_agent/investment_briefing_validator.py:140-142 | the filings of that form, in their order, and only those |
| InvestmentValidator.FilingsByDate | validation_agent/investment_briefing_validator.py:144-146 | the filings filed on or reporting for the date, in their order, and only those |
| InvestmentValidator.InsertAll | validation_agent/investment_briefing_validator.py:222-228 | the values found, each once, in ascending order: what `sorted(set(...))` returns |
| InvestmentValidator.SortedDistinct | validation_agent/investment_briefing_validator.py:222-228 | the loop that adds each found value leaves the ascending list without duplicates of exactly the values found |
| InvestmentValidator.CitedNewsIds | validation_agent/investment_briefing_validator.py:204-228 | the cited news ids are exactly the captures of the id patterns in the briefing's text, each once, ascending |
| InvestmentValidator.CitedSecDates | validation_agent/investment_briefing_validator.py:230-247 | the cited SEC dates are exactly the captures of the date pattern in the briefing's text, each once, ascending |
| InvestmentValidator.ExtractCitedNewsIds | validation_agent/investment_briefing_validator.py:204-228 | the method returns the cited news ids |
| InvestmentValidator.ExtractCitedSecDates | validation_agent/investment_briefing_validator.py:230-247 | the method returns the cited SEC dates |
| InvestmentValidator.NewsIdMatch | validation_agent/investment_briefing_validator.py:316-338 | a cited id is VALID exactly when an article has it, else NOT_FOUND; the match is a news-article match |
| InvestmentValidator.SecDateMatch | validation_agent/investment_briefing_validator.py:343-371 | a cited date is VALID exactly when a filing was filed on or reports for it, else NOT_FOUND; the match is an SEC-filing match |
| InvestmentValidator.NewsIdMatchFound | validation_agent/investment_briefing_validator.py:317-327 | a VALID news match refers to the first article with the id, and records its id and title |
| InvestmentValidator.SecDateMatchFound | validation_agent/investment_briefing_validator.py:351-362 | a VALID SEC match refers to the first filing filed on or reporting for the date, and records the date and its form |
| InvestmentValidator.IssuesCount | validation_agent/investment_briefing_validator.py:316-371 | each unavailable value adds one NOT_FOUND match and one issue line, and every value is VALID or NOT_FOUND |
| InvestmentValidator.IssuesEmpty | validation_agent/investment_briefing_validator.py:408 | there are no issues exactly when every cited value is available |
| InvestmentValidator.CheckedCounts | validation_agent/investment_briefing_validator.py:312-371 | one claim per cited id and date; every claim is VALID or NOT_FOUND; none is INVALID |
| InvestmentValidator.CheckedVerdict | validation_agent/investment_briefing_validator.py:408 | the briefing passes exactly when every cited id names a source article and every cited date is a filed or reporting date of a source filing |
| InvestmentValidator.CheckedIssues | validation_agent/investment_briefing_validator.py:338-408 | one issue line per NOT_FOUND claim |
| InvestmentValidator.Skipped | validation_agent/investment_briefing_validator.py:280-283 | text that is not JSON gives a passing result with no claims and no errors |
| InvestmentValidator.Unparsed | validation_agent/investment_briefing_validator.py:304-307 | a parse failure gives a failing result with the parse error and no claims |
| InvestmentValidator.CheckCited | validation_agent/investment_briefing_validator.py:316-371 | each cited value's loop step adds its match and a claim, and either a VALID count or a NOT_FOUND count and an issue line |
| InvestmentValidator.CheckNews | validation_agent/investment_briefing_validator.py:316-338 | the news loop adds the news matches and returns the news issue lines |
| InvestmentValidator.CheckSec | validation_agent/investment_briefing_validator.py:350-371 | the SEC loop adds the SEC matches and returns the SEC issue lines |
| InvestmentValidator.CheckBriefing | validation_agent/investment_briefing_validator.py:310-439 | the checks of a parsed briefing give its source report: the tallied matches, the verdict and the summary |
| InvestmentValidator.ValidateSources | validation_agent/investment_briefing_validator.py:268-439 | text that is not JSON is skipped and passes; a briefing gives its source report; a decode error gives the parse-error result; a shape error of `from_dict` is raised |
| InvestmentValidator.VerificationMatch | validation_agent/investment_briefing_validator.py:565-573 | a verified source is VALID exactly when it matches the source, else INVALID |
| InvestmentValidator.FactualStatus | validation_agent/investment_briefing_validator.py:582-591 | "verified" in any case is VALID, "incorrect" INVALID, anything else PARTIAL |
| InvestmentValidator.ClaimMatch | validation_agent/investment_briefing_validator.py:582-600 | a factual claim's match carries its status |
| InvestmentValidator.VerificationCounts | validation_agent/investment_briefing_validator.py:565-580 | every verified source is counted as VALID or as INVALID |
| InvestmentValidator.ClaimCounts | validation_agent/investment_briefing_validator.py:582-601 | every factual claim is VALID, INVALID or PARTIAL |
| InvestmentValidator.ContentTallySpec | validation_agent/investment_briefing_validator.py:565-601 | one claim per reply entry; the claims counted neither VALID nor INVALID are exactly the PARTIAL factual claims |
| InvestmentValidator.TallyContent | validation_agent/investment_briefing_validator.py:565-601 | each reply entry adds its match, a claim, and a VALID or INVALID count when it has that status |
| InvestmentValidator.ContentFromReply | validation_agent/investment_briefing_validator.py:560-611 | a failed LLM call gives a failing result with its message; a reply gives its tally, its summary, and a pass exactly when the score is at least 0.7 |
| InvestmentValidator.ValidateContent | validation_agent/investment_briefing_validator.py:493-613 | text that is not JSON is skipped and passes; a decode error gives the parse-error result; a shape error is raised; a briefing gives the result of the LLM's reply |
| MapSourceTools.SetAllGet | validation_agent/source_tools.py:1120-1123 | after a run of dictionary writes a key holds the value written last, and a key never written keeps its old value |
| MapSourceTools.SetAllUnique | validation_agent/source_tools.py:1120-1123 | dictionary writes never give a key a second entry |
| MapSourceTools.SetAllSnoc | validation_agent/source_tools.py:1120-1123 | one more write is a `d[k] = v` on the dictionary the earlier writes left |
| MapSourceTools.SetAllAppend | validation_agent/source_tools.py:1258-1261 | writing two runs in turn (the JSON files, then the CSV files) is writing their concatenation |
| MapSourceTools.LastValueKey | validation_agent/source_tools.py:1120-1123 | a key has a last written value exactly when some write uses that key |
| MapSourceTools.WriteAll | validation_agent/source_tools.py:827-829 | `dict.update` leaves the dictionary the run of writes defines |
| MapSourceTools.WriteKept | validation_agent/source_tools.py:1108-1113 | the list loop of a loader writes each item with a non-empty key, stamped with the file name, under that key, in order |
| MapSourceTools.WriteStamped | validation_agent/source_tools.py:1120-1123 | the object-of-objects loop writes every entry stamped with the file name |
| MapSourceTools.KeyedBy | validation_agent/source_tools.py:815-825 | keying a list yields one entry per item, the i-th being that item under its key |
| MapSourceTools.KeyedStep | validation_agent/source_tools.py:815-819 | keying one more item writes that item under its key |
| MapSourceTools.KeptKeyed | validation_agent/source_tools.py:1108-1113 | the kept entries are never more than the items |
| MapSourceTools.KeptKeyedWritten | validation_agent/source_tools.py:1110-1113 | a turn of the list loop whose item has a key writes it there, stamped |
| MapSourceTools.KeptKeyedSkipped | validation_agent/source_tools.py:1110-1111 | a turn whose item has an empty key writes nothing |
| MapSourceTools.KeptKeysNonEmpty | validation_agent/source_tools.py:1274-1278 | no event stored from a list or a CSV file sits under the empty id |
| MapSourceTools.KeptKeyedKeys | validation_agent/source_tools.py:1291-1296 | every key the list loop writes is non-empty |
| MapSourceTools.Stamped | validation_agent/source_tools.py:1279-1282 | an object of objects keeps its keys and order, each value stamped with the file name |
| MapSourceTools.TitleMatchesSpec | validation_agent/source_tools.py:1160-1164 | a title search returns, tagged with its key, each entry whose title contains the query case-insensitively, and nothing else |
| MapSourceTools.SearchTitles | validation_agent/source_tools.py:1160-1166 | the title-search loop returns exactly the title matches in dictionary order |
| MapSourceTools.BriefingArticle | validation_agent/source_tools.py:927-964 | an article reference is NOT_FOUND exactly when its pk is not stored, VALID exactly when the stored title matches, PARTIAL otherwise, with the stored article as data |
| MapSourceTools.BriefingChart | validation_agent/source_tools.py:966-993 | a chart reference is VALID (0.9) when the ticker is cached and PARTIAL (0.5) otherwise, never NOT_FOUND |
| MapSourceTools.BriefingEvent | validation_agent/source_tools.py:995-1033 | an event reference is NOT_FOUND exactly when its id is not stored, VALID exactly when either title contains the other |
| MapSourceTools.BriefingValidateErrors | validation_agent/source_tools.py:892-925 | the briefing-script tool answers ERROR exactly when the reference is not JSON or its type is not article, chart or event |
| MapSourceTools.BriefingScriptSourceTool.constructor | validation_agent/source_tools.py:737-742 | a new tool holds no articles, charts or events and is not loaded |
| MapSourceTools.BriefingScriptSourceTool.AddArticles | validation_agent/source_tools.py:815-819 | each article is written under `pk or id`, a later one replacing an earlier one; nothing else changes |
| MapSourceTools.BriefingScriptSourceTool.AddEvents | validation_agent/source_tools.py:821-825 | each event is written under `str(id)`; nothing else changes |
| MapSourceTools.BriefingScriptSourceTool.AddCharts | validation_agent/source_tools.py:827-829 | the charts are merged in by ticker; nothing else changes |
| MapSourceTools.BriefingScriptSourceTool.LoadArticles | validation_agent/source_tools.py:776-789 | a list is written by `pk or id`, an object of objects merged as it stands, anything else ignored |
| MapSourceTools.BriefingScriptSourceTool.LoadEvents | validation_agent/source_tools.py:791-803 | a list is written by `str(id)`, an object of objects merged as it stands |
| MapSourceTools.BriefingScriptSourceTool.LoadCharts | validation_agent/source_tools.py:805-813 | only an object of objects is merged into the charts |
| MapSourceTools.BriefingScriptSourceTool.Load | validation_agent/source_tools.py:748-774 | a directory's articles, events and charts files are each loaded when present, and the tool is marked loaded |
| MapSourceTools.BriefingScriptSourceTool.Search | validation_agent/source_tools.py:831-890 | the search loop returns the briefing-script search of the current dictionaries |
| MapSourceTools.BriefingScriptSourceTool.ValidateClaim | validation_agent/source_tools.py:892-925 | the answer is the reference's dispatch on its JSON `type` |
| MapSourceTools.ArticleReferenceKey | validation_agent/source_tools.py:1178-1182 | a `pk:` prefix is dropped, any other reference is the pk itself |
| MapSourceTools.ArticleValidateSpec | validation_agent/source_tools.py:1172-1202 | the article tool is VALID (0.95) exactly when the pk is stored, with that article as data, NOT_FOUND otherwise, and names the pk |
| MapSourceTools.ArticleReferenceForms | validation_agent/source_tools.py:1178-1182 | `pk:K` and `K` validate alike |
| MapSourceTools.ArticleSourceTool.constructor | validation_agent/source_tools.py:1080-1082 | a new tool holds no articles and is not loaded |
| MapSourceTools.ArticleSourceTool.LoadJson | validation_agent/source_tools.py:1103-1125 | a list is written by non-empty `pk or id`, a single article by its key, an object of objects entry by entry, each stamped with the file name |
| MapSourceTools.ArticleSourceTool.Load | validation_agent/source_tools.py:1090-1101 | loading starts from an empty dictionary, reads each JSON file in turn and marks the tool loaded |
| MapSourceTools.ArticleSourceTool.Search | validation_agent/source_tools.py:1150-1166 | a stored `id#`/`pk#` query returns that article alone, anything else a title search |
| MapSourceTools.ArticleSourceTool.SearchByPk | validation_agent/source_tools.py:1168-1170 | the lookup is absent exactly when the pk is not stored |
| MapSourceTools.ArticleSourceTool.ValidateClaim | validation_agent/source_tools.py:1172-1202 | the answer is the article validation of the current dictionary |
| MapSourceTools.EventValidateSpec | validation_agent/source_tools.py:1321-1343 | the event tool is VALID (0.95) exactly when the trimmed reference is a stored id, with that event as data, NOT_FOUND otherwise |
| MapSourceTools.EventSourceTool.constructor | validation_agent/source_tools.py:1243-1245 | a new tool holds no events and is not loaded |
| MapSourceTools.EventSourceTool.LoadJson | validation_agent/source_tools.py:1269-1285 | a list is written by non-empty `str(id)`, an object of objects entry by entry, each stamped with the file name |
| MapSourceTools.EventSourceTool.LoadCsv | validation_agent/source_tools.py:1287-1298 | each CSV row with a non-empty `id` (or `event_id`) is written under it, stamped |
| MapSourceTools.EventSourceTool.Load | validation_agent/source_tools.py:1251-1267 | loading starts from an empty dictionary, reads the JSON files then the CSV files and marks the tool loaded |
| MapSourceTools.EventSourceTool.Search | validation_agent/source_tools.py:1300-1315 | a query that is a stored id returns that event alone, anything else a title search |
| MapSourceTools.EventSourceTool.SearchById | validation_agent/source_tools.py:1317-1319 | the lookup is absent exactly when the id is not stored |
| MapSourceTools.EventSourceTool.ValidateClaim | validation_agent/source_tools.py:1321-1343 | the answer is the event validation of the current dictionary |
| ScraperCalendarXhr.CollectEventIds | scraper/calendar_xhr.py:61-65 | the set holds exactly the non-empty `data-id` values of the page's rows |
| ScraperCalendarXhr.BuildImportanceLookup | scraper/calendar_xhr.py:43-58 | the lookup's keys are the ids of the three levels, and each id maps to the highest level it was listed under (level 3 overwrites 2, 2 overwrites 1) |
| ScraperCalendarXhr.MakeRow | scraper/calendar_xhr.py:81-118 | the row carries its event id and the lookup's level for it, or none; it has a Korean time exactly when it has a UTC time |
| ScraperCalendarXhr.FetchCalendarRows | scraper/calendar_xhr.py:68-120 | the loop returns the rows of the page's rows that have an event id, in page order |
| ScraperCalendarXhr.FetchedRows | scraper/calendar_xhr.py:80-109 | one row comes out per page row with a non-empty id, in page order, each with the lookup's level for its id or none |
| ScraperParseUtils.FirstDateShaped | scraper/parse_utils.py:33-37 | None iff no token is date-shaped (10 characters, '-' at 4 and 7); otherwise the first token that is |
| ScraperParseUtils.ExtractDateFromClasses | scraper/parse_utils.py:31-37 | None iff no stripped class name is date-shaped; otherwise the first stripped class name that is |
| ScraperParseUtils.ParseTimeToUtc | scraper/parse_utils.py:40-74 | None for a missing or empty date, a blank text, a text containing one of the five sentinels, or a date `strptime` rejects |
| ScraperParseUtils.TbaOnlyHere | scraper/parse_utils.py:54-55 | "TBA" counts as a sentinel here, while the calendar scraper's parser passes it on (te_calendar_scraper/scraper/parse_utils.py:42) |
| ScraperParseUtils.DashesOnlyThere | scraper/parse_utils.py:54-55 | "--" is no sentinel here, while the calendar scraper's parser refuses it (te_calendar_scraper/scraper/parse_utils.py:42) |
| ScraperParseUtils.ResolveUrl | scraper/parse_utils.py:84-93 | None iff the path is missing or empty; an http(s) link comes back stripped; anything else is the base, one slash and the stripped path, the slash added only when the path lacks one |
| ScraperParseUtils.ResolveUrlIdempotent | scraper/parse_utils.py:84-93 | with an absolute base, resolving a resolved link changes nothing |
| ScraperParseUtils.AbsoluteKept | scraper/parse_utils.py:88-89 | an absolute link with nothing to strip is returned unchanged |
| ScraperParseUtils.CapitalizeWord | scraper/parse_utils.py:99 | a capitalised word is still a word, and capitalising it again changes nothing |
| ScraperParseUtils.FormatCountry | scraper/parse_utils.py:96-100 | None iff the value is missing or empty; otherwise single-spaced, with the value's words each capitalised |
| ScraperParseUtils.FormatCountryIdempotent | scraper/parse_utils.py:96-100 | formatting a formatted name changes nothing; a blank but non-empty value gives "" rather than None |
| ScriptValidator.GetOpt | validation_agent/script_validator.py:69-75 | `data.get(key)`: none exactly when the key is absent, else its value |
| ScriptValidator.ToDictType | validation_agent/script_validator.py:78-79 | `to_dict` always writes the type |
| ScriptValidator.ToDictKeys | validation_agent/script_validator.py:78-94 | `to_dict` writes each optional key exactly when its field is truthy |
| ScriptValidator.ToDictKeySet | validation_agent/script_validator.py:78-94 | `to_dict` writes no key outside the eight of the schema |
| ScriptValidator.FromToDict | validation_agent/script_validator.py:65-94 | reading back what `to_dict` wrote gives the same source, for every source whose optional fields are absent or non-empty |
| ScriptValidator.FromDictEmptyTitle | validation_agent/script_validator.py:65-94 | a source read with an empty title keeps it, and writing it back drops the key: the round trip needs non-empty fields |
| ScriptValidator.ItemFromRaw | validation_agent/script_validator.py:106-115 | an item keeps one source per decoded source, each read by `ScriptSource.from_dict` |
| ScriptValidator.ScriptFromRaw | validation_agent/script_validator.py:127-136 | a script keeps one item per decoded item, each read by `ScriptItem.from_dict` |
| ScriptValidator.ItemPairs | validation_agent/script_validator.py:152-154 | one pair per source of an item, each with the item's id |
| ScriptValidator.AllPairsLength | validation_agent/script_validator.py:149-155 | there are as many pairs as sources over all items |
| ScriptValidator.GetAllSources | validation_agent/script_validator.py:149-155 | every source paired with its item's id, item by item in order; as many as there are sources |
| ScriptValidator.PickedKeysMembers | validation_agent/script_validator.py:157-164 | a key is picked from a list of sources exactly when some source there carries it |
| ScriptValidator.KeyListMembers | validation_agent/script_validator.py:157-182 | a key is collected exactly when some source of some item carries it |
| ScriptValidator.Distinct | validation_agent/script_validator.py:164 | the distinct elements of a list, without duplicates and with the same members |
| ScriptValidator.DistinctKeys | validation_agent/script_validator.py:157-182 | the getters' loop returns each key cited by some source once, and nothing else |
| ScriptValidator.GetArticlePks | validation_agent/script_validator.py:157-164 | the pks of article sources with a non-empty pk, each once, and nothing else |
| ScriptValidator.GetEventIds | validation_agent/script_validator.py:166-173 | the ids of event sources with a non-empty id, each once, and nothing else |
| ScriptValidator.GetTickers | validation_agent/script_validator.py:175-182 | the tickers of chart sources with a non-empty ticker, each once, and nothing else |
| ScriptValidator.CitedKeyShape | validation_agent/script_validator.py:157-182 | a collected key is non-empty and comes from a source of the getter's type |
| ScriptValidator.ArticleSourceMatch | validation_agent/script_validator.py:350-381 | NOT_FOUND exactly when the pk is not stored; VALID exactly when it is and the given title is in the stored title ignoring case; PARTIAL otherwise; the stored article is attached when found |
| ScriptValidator.EventSourceMatch | validation_agent/script_validator.py:395-414 | VALID exactly when the id is stored, with the stored event attached; NOT_FOUND exactly when it is not |
| ScriptValidator.ValidateChartSource | validation_agent/script_validator.py:426-437 | a chart source is PARTIAL at confidence 0.5 under the item's claim |
| ScriptValidator.ValidateUnknownSource | validation_agent/script_validator.py:439-446 | a source of any other type is an ERROR under its own type, with no data |
| ScriptValidator.ValidateSourceWithoutTool | validation_agent/script_validator.py:382-424 | an article or event that neither its own tool nor the briefing-script tool can check is an ERROR |
| ScriptValidator.ValidateArticleSource | validation_agent/script_validator.py:349-381 | with the article tool at hand and a pk given, the verdict is NOT_FOUND, VALID or PARTIAL exactly as the stored title decides |
| ScriptValidator.ValidateEventSource | validation_agent/script_validator.py:394-414 | with the event tool at hand and an id given, the event is VALID exactly when its id is stored, else NOT_FOUND |
| ScriptValidator.ItemMatches | validation_agent/script_validator.py:307-312 | one match per source of the item |
| ScriptValidator.ScriptMatchesLength | validation_agent/script_validator.py:302-323 | one match per cited source over the whole script |
| ScriptValidator.ScriptMatchesPairs | validation_agent/script_validator.py:302-323 | each match is the judgement of the source at the same position of `get_all_sources`, under its own item |
| ScriptValidator.ItemMatchesAt | validation_agent/script_validator.py:307-312 | the k-th match of an item is the judgement of its k-th source |
| ScriptValidator.TallyItem | validation_agent/script_validator.py:307-323 | the inner loop appends the item's matches in order and raises the counter of each match's status |
| ScriptValidator.TallySources | validation_agent/script_validator.py:302-323 | the loop leaves the tally of every source's match, item by item, in order |
| ScriptValidator.ParseFailed | validation_agent/script_validator.py:289-294 | a script that does not decode fails with one parse error and no claims |
| ScriptValidator.SourceResultSpec | validation_agent/script_validator.py:302-329 | one claim per cited source; the counts never exceed the total; the script passes exactly when no claim is INVALID and at most a tenth are NOT_FOUND |
| ScriptValidator.NoSourcesPass | validation_agent/script_validator.py:302-329 | a script without sources passes with zero claims |
| ScriptValidator.ScriptSourceValidator.constructor | validation_agent/script_validator.py:247-250 | a new validator has no tools of its own |
| ScriptValidator.ScriptSourceValidator.SetArticleTool | validation_agent/script_validator.py:256-258 | sets the article tool and leaves the others |
| ScriptValidator.ScriptSourceValidator.SetEventTool | validation_agent/script_validator.py:260-262 | sets the event tool and leaves the others |
| ScriptValidator.ScriptSourceValidator.SetBriefingTool | validation_agent/script_validator.py:264-266 | sets the briefing-script tool and leaves the others |
| ScriptValidator.ScriptSourceValidator.Validate | validation_agent/script_validator.py:268-334 | a decode error gives the parse-failure result; a decoded script gives the tally of its sources judged with the validator's own tools, else the registered ones, and the verdict and summary |
| ScriptValidator.ContentStatus | validation_agent/script_validator.py:700-711 | supported/valid map to VALID, unsupported/invalid to INVALID, exaggerated/misinterpreted/partial to PARTIAL, anything else to NOT_FOUND, ignoring case |
| ScriptValidator.ContentFitness | validation_agent/script_validator.py:713-721 | excellent, fair and poor map to their level and anything else to GOOD, ignoring case |
| ScriptValidator.ContentMappingsIgnoreCase | validation_agent/script_validator.py:700-721 | both mappings give the same answer for a text and its lower-case form |
| SourceTools.FilterSpec | validation_agent/source_tools.py:109-133 | a search filter keeps each accepted record once, in load order, and nothing else |
| SourceTools.FilterFirst | validation_agent/source_tools.py:160-170 | the first record a filter returns is the first accepted record of the input |
| SourceTools.FilterNone | validation_agent/source_tools.py:109-133 | a filter that accepts no record returns nothing |
| SourceTools.FirstHit | validation_agent/source_tools.py:160-170 | when some record is accepted, the filter's head is the first accepted record |
| SourceTools.Prefix | validation_agent/source_tools.py:945 | `s[:n]` is a prefix of at most n characters |
| SourceTools.CalendarSearch | validation_agent/source_tools.py:109-111 | an unloaded tool finds nothing |
| SourceTools.TECalendarSourceTool.constructor | validation_agent/source_tools.py:67-69 | a new tool has no data and is not loaded |
| SourceTools.TECalendarSourceTool.Load | validation_agent/source_tools.py:75-107 | the tool holds the rows of the calendar CSV files in reading order, each with its file name, and is loaded |
| SourceTools.TECalendarSourceTool.Search | validation_agent/source_tools.py:109-133 | the loop returns the calendar search of the loaded data |
| SourceTools.TECalendarSourceTool.ValidateClaim | validation_agent/source_tools.py:135-188 | the method returns the calendar verdict on the loaded data |
| SourceTools.CalendarSearchSpec | validation_agent/source_tools.py:109-133 | calendar search returns each event whose title, category or date strings contain the query, once, in load order, and nothing else |
| SourceTools.CalendarValidateSpec | validation_agent/source_tools.py:135-188 | on loaded data: NOT_FOUND exactly when no event matches the reference; otherwise VALID with the first matching event, at 0.9 for a single match and 0.7 for several |
| SourceTools.IndicatorSearch | validation_agent/source_tools.py:273-275 | an unloaded tool finds nothing |
| SourceTools.IndexOf | validation_agent/source_tools.py:314 | the index of the first occurrence of a character, or -1 when it does not occur |
| SourceTools.LeadingSpaces | validation_agent/source_tools.py:314 | the length of the whitespace run the pattern's `\s*` takes |
| SourceTools.RunUntil | validation_agent/source_tools.py:314 | the longest prefix without the character, as the greedy `[^,]+` takes it |
| SourceTools.IndicatorReference | validation_agent/source_tools.py:314-323 | a match gives as name everything before the first colon, non-empty and colon-free, and a non-empty value |
| SourceTools.IndicatorReferenceMatches | validation_agent/source_tools.py:314-323 | the pattern matches exactly when a non-empty name precedes the first colon and something other than a comma follows it |
| SourceTools.NumericPart | validation_agent/source_tools.py:350-351 | the digits and dots of a text, in order, and nothing else |
| SourceTools.TEIndicatorsSourceTool.constructor | validation_agent/source_tools.py:229-231 | a new tool has no data and is not loaded |
| SourceTools.TEIndicatorsSourceTool.Load | validation_agent/source_tools.py:237-271 | the tool holds the rows of the newest indicator file, if any, and is loaded |
| SourceTools.TEIndicatorsSourceTool.Search | validation_agent/source_tools.py:273-292 | the loop returns the indicator search of the loaded data |
| SourceTools.TEIndicatorsSourceTool.ValidateClaim | validation_agent/source_tools.py:294-373 | the method returns the indicator verdict on the loaded data |
| SourceTools.IndicatorValidateSpec | validation_agent/source_tools.py:325-373 | NOT_FOUND exactly when no indicator name contains the claimed name; otherwise VALID at 0.95 exactly when the first such indicator's value agrees on digits and dots, else INVALID at 0.8 with a "name: value unit" correction |
| SourceTools.IndicatorUnparsed | validation_agent/source_tools.py:314-323 | a reference the pattern does not match is an ERROR, whatever the data |
| SourceTools.FomcDocument | validation_agent/source_tools.py:430-446 | a PDF is kept exactly when its stem has at least three underscore-separated parts |
| SourceTools.FomcDocuments | validation_agent/source_tools.py:429-446 | no more documents are kept than there are PDFs |
| SourceTools.FomcDocumentFields | validation_agent/source_tools.py:430-446 | a file named year_month_dates_rest is kept with exactly those three fields |
| SourceTools.FomcSearch | validation_agent/source_tools.py:451-453 | an unloaded tool finds nothing |
| SourceTools.FOMCSourceTool.constructor | validation_agent/source_tools.py:411-413 | a new tool has no data and is not loaded |
| SourceTools.FOMCSourceTool.Load | validation_agent/source_tools.py:419-449 | a directory gives the documents of its PDFs and sets loaded; any other path empties the data and leaves loaded as it was |
| SourceTools.FOMCSourceTool.Search | validation_agent/source_tools.py:451-470 | the loop returns the FOMC search of the loaded data |
| SourceTools.FOMCSourceTool.ValidateClaim | validation_agent/source_tools.py:472-510 | the method returns the FOMC verdict on the loaded data |
| SourceTools.FomcValidateNeverValid | validation_agent/source_tools.py:472-510 | never VALID: PARTIAL at 0.6 with the first document exactly when the search finds one, NOT_FOUND exactly when loaded and no document matches |
| SourceTools.NewsSearch | validation_agent/source_tools.py:583-585 | an unloaded tool finds nothing |
| SourceTools.NewsSourceTool.constructor | validation_agent/source_tools.py:547-549 | a new tool has no data and is not loaded |
| SourceTools.NewsSourceTool.Load | validation_agent/source_tools.py:555-581 | the tool holds the items of each JSON file, stamped with the file name, and is loaded |
| SourceTools.NewsSourceTool.Search | validation_agent/source_tools.py:583-610 | the loop returns the news search of the loaded data |
| SourceTools.NewsSourceTool.ValidateClaim | validation_agent/source_tools.py:612-668 | the method returns the news verdict on the loaded data |
| SourceTools.NewsReferenceQuoted | validation_agent/source_tools.py:629-635 | a quoted headline followed by " - Provider" yields that headline and the stripped provider |
| SourceTools.NewsValidateSpec | validation_agent/source_tools.py:612-668 | on loaded data: VALID at 0.85 with a matching article exactly when some article's headline and the reference's contain one another and any given provider is part of the article's; otherwise NOT_FOUND |
| SourceTools.CustomValidate | validation_agent/source_tools.py:1439-1469 | ERROR until loaded, NOT_FOUND afterwards |
| SourceTools.CustomSourceTool.constructor | validation_agent/source_tools.py:1388-1390 | a new tool has no data and is not loaded |
| SourceTools.CustomSourceTool.Load | validation_agent/source_tools.py:1397-1417 | the tool holds no data and is loaded |
| SourceTools.CustomSourceTool.Search | validation_agent/source_tools.py:1419-1437 | the template finds nothing |
| SourceTools.CustomSourceTool.ValidateClaim | validation_agent/source_tools.py:1439-1469 | the method returns the template's verdict |
| SourceTools.UnloadedListTools | validation_agent/source_tools.py:135-143 | every tool answers ERROR until its sources are loaded |
| TeCalendarXhr.CountryToCookieShape | te_calendar_scraper/scraper/calendar_xhr.py:159-163 | any alias of the United States gives "usa"; every cookie value is lower case with no space and no whitespace at either end |
| TeCalendarXhr.CountryToCookieIgnoresCase | te_calendar_scraper/scraper/calendar_xhr.py:160 | the cookie value does not depend on letter case |
| TeCalendarXhr.AliasesHaveNoHyphen | te_calendar_scraper/scraper/calendar_xhr.py:161 | no United States alias contains a hyphen |
| TeCalendarXhr.CountryToCookieIdempotent | te_calendar_scraper/scraper/calendar_xhr.py:159-163 | a cookie value is its own cookie value |
| TeCalendarXhr.NonAliasStable | te_calendar_scraper/scraper/calendar_xhr.py:161-163 | replacing the spaces of a non-alias never makes an alias, and replacing again changes nothing |
| TeCalendarXhr.SortedSet | te_calendar_scraper/scraper/calendar_xhr.py:45 | `sorted(set(impacts))` is strictly increasing and holds exactly the impacts given |
| TeCalendarXhr.IncreasingUnique | te_calendar_scraper/scraper/calendar_xhr.py:45 | two strictly increasing lists with the same elements are equal |
| TeCalendarXhr.ImportanceValueOrderFree | te_calendar_scraper/scraper/calendar_xhr.py:45 | the importance cookie depends only on which impacts are asked for, not on their order or repetition |
| TeCalendarXhr.IsoDate | te_calendar_scraper/scraper/calendar_xhr.py:47 | a valid date is written in 10 characters |
| TeCalendarXhr.BuildCookiePayload | te_calendar_scraper/scraper/calendar_xhr.py:36-48 | the payload has the country, importance, range and custom-range cookies in that order, with the country cookie value, the importance list, "0" and `start` and `end` joined by a vertical bar |
| TeCalendarXhr.FirstIsoFrom | te_calendar_scraper/scraper/calendar_xhr.py:25 | the search finds the leftmost `\d{4}-\d{2}-\d{2}` at or after i, and None only when there is none |
| TeCalendarXhr.ExtractRowDate | te_calendar_scraper/scraper/calendar_xhr.py:121-136 | a date comes back only if it is a real date, and never for a row without cells |
| TeCalendarXhr.IsoDateAt | te_calendar_scraper/scraper/calendar_xhr.py:130-134 | a date written in `YYYY-MM-DD` form is read back as the same date |
| TeCalendarXhr.CustomRangeRoundTrip | te_calendar_scraper/scraper/calendar_xhr.py:47 | the custom-range cookie is `start` and `end` joined by a vertical bar and both halves read back as the two dates |
| TeCalendarXhr.RowDateRoundTrip | te_calendar_scraper/scraper/calendar_xhr.py:121-136 | a date written among first-cell classes with no digit before it is the row's date |
| TeCalendarXhr.FirstTokenImpact | te_calendar_scraper/scraper/calendar_xhr.py:147-156 | None iff no class token yields a level; otherwise the level of the first token that does |
| TeCalendarXhr.ImpactReadsLastPart | te_calendar_scraper/scraper/calendar_xhr.py:152-155 | `importance-A-B` gives B here (the last hyphen part), while the calendar scraper's `extract_impact` gives nothing (te_calendar_scraper/scraper/parse_utils.py:109-112) |
| TeCalendarXhr.LastDate | te_calendar_scraper/scraper/calendar_xhr.py:61-71 | the carried date is None iff no row so far has its own date; otherwise it is the own date of the last row that has one |
| TeCalendarXhr.LastDateStep | te_calendar_scraper/scraper/calendar_xhr.py:67-71 | one more row carries its own date when it has one, else the date carried so far |
| TeCalendarXhr.ParseCalendarHtml | te_calendar_scraper/scraper/calendar_xhr.py:58-111 | the loop over the located rows returns exactly `Parsed` |
| TeCalendarXhr.KeptIndices | te_calendar_scraper/scraper/calendar_xhr.py:63-75 | the positions of the rows with a data-id and a first cell, increasing, and all of them |
| TeCalendarXhr.ParsedLength | te_calendar_scraper/scraper/calendar_xhr.py:63-109 | one row comes out per kept `tr` |
| TeCalendarXhr.ParsedRows | te_calendar_scraper/scraper/calendar_xhr.py:63-109 | the rows come out in the order of their kept `tr`s, and each is built with the date carried up to and including its `tr` |
| TeParseUtils.CleanText | te_calendar_scraper/scraper/parse_utils.py:19-23 | None iff the value is None or all whitespace; otherwise a non-empty, single-spaced text with the same words as the value |
| TeParseUtils.CleanTextIdempotent | te_calendar_scraper/scraper/parse_utils.py:19-23 | cleaning a cleaned text changes nothing |
| TeParseUtils.CleanTextOfWord | te_calendar_scraper/scraper/parse_utils.py:19-23 | a single word without whitespace is already clean |
| TeParseUtils.ParseTimeToUtc | te_calendar_scraper/scraper/parse_utils.py:31-65 | None for a blank text, a text whose lower-cased clean form is one of the six sentinels, or a missing context; any time returned is the parser's result on the cleaned text with the context as default |
| TeParseUtils.AttrImpact | te_calendar_scraper/scraper/parse_utils.py:103-106 | a level is found iff one of the named data attributes is present and a non-empty digit string |
| TeParseUtils.ClassImpact | te_calendar_scraper/scraper/parse_utils.py:107-116 | None iff no class token yields a level; otherwise the level of the first token that does |
| TeParseUtils.ExtractImpactOrder | te_calendar_scraper/scraper/parse_utils.py:95-120 | no selector or no element gives None; a digit data attribute decides whatever class and text say; failing that a class token decides whatever the text says |
| TeParseUtils.ImportanceSuffix | te_calendar_scraper/scraper/parse_utils.py:109-112 | `importance-N` with N all digits yields level N (the suffix is everything after the first hyphen) |
| SourceToolsAdapter.NewRefRule | closing_briefing/source_tools_adapter.py:438-474 | a reference keeps the draft's texts, falls back to the briefing date, and is a chart exactly when a ticker is set, an event when an id is set and no ticker, an article when only a pk is set, and untyped otherwise |
| SourceToolsAdapter.Reported | closing_briefing/source_tools_adapter.py:438-474 | a handler creates one reference per row, in row order |
| SourceToolsAdapter.StringFilterSpec | closing_briefing/source_tools_adapter.py:553-557 | a falsy filter keeps every row; a string filter keeps, in order, exactly the rows it accepts; any other truthy value raises exactly when there is a row |
| SourceToolsAdapter.Execute | closing_briefing/source_tools_adapter.py:404-436 | a name with no handler is the error "Unknown tool: name" and creates no reference |
| SourceToolsAdapter.BriefingSourceToolAdapter.constructor | closing_briefing/source_tools_adapter.py:307-321 | the adapter keeps the loaded tools, has no references, and its briefing date is the configured one when set, else today |
| SourceToolsAdapter.BriefingSourceToolAdapter.CreateReference | closing_briefing/source_tools_adapter.py:438-474 | the new reference is built from the draft and appended to the log |
| SourceToolsAdapter.BriefingSourceToolAdapter.ReferenceEach | closing_briefing/source_tools_adapter.py:494-507 | the loop's references are those of the rows, appended to the log in order |
| SourceToolsAdapter.BriefingSourceToolAdapter.SearchCalendar | closing_briefing/source_tools_adapter.py:476-507 | the calendar search answers and logs as its outcome says |
| SourceToolsAdapter.BriefingSourceToolAdapter.SearchIndicators | closing_briefing/source_tools_adapter.py:509-539 | the indicator search answers and logs as its outcome says |
| SourceToolsAdapter.BriefingSourceToolAdapter.SearchNews | closing_briefing/source_tools_adapter.py:541-578 | the news search answers and logs as its outcome says |
| SourceToolsAdapter.BriefingSourceToolAdapter.SearchFomc | closing_briefing/source_tools_adapter.py:580-600 | the FOMC search answers and logs as its outcome says |
| SourceToolsAdapter.BriefingSourceToolAdapter.SearchYahooFinance | closing_briefing/source_tools_adapter.py:602-625 | the Yahoo Finance search answers and logs as its outcome says |
| SourceToolsAdapter.BriefingSourceToolAdapter.SearchMarketData | closing_briefing/source_tools_adapter.py:627-653 | the market data search answers and logs as its outcome says |
| SourceToolsAdapter.BriefingSourceToolAdapter.SearchSecEdgar | closing_briefing/source_tools_adapter.py:655-684 | the SEC filing search answers and logs as its outcome says |
| SourceToolsAdapter.BriefingSourceToolAdapter.GetSourcesSummary | closing_briefing/source_tools_adapter.py:686-707 | the summary answers with the briefing date and the loaded sources |
| SourceToolsAdapter.BriefingSourceToolAdapter.ExecuteTool | closing_briefing/source_tools_adapter.py:404-436 | the call answers and logs as the dispatched handler's outcome says |
| SourceToolsAdapter.BriefingSourceToolAdapter.GetAllReferences | closing_briefing/source_tools_adapter.py:709-711 | the log of references is returned |
| SourceToolsAdapter.BriefingSourceToolAdapter.ResetReferences | closing_briefing/source_tools_adapter.py:713-715 | the log is emptied |
| SourceToolsAdapter.DisplayItem | closing_briefing/source_tools_adapter.py:786 | the shown record has exactly the keys not starting with `_`, with their values |
| SourceToolsAdapter.ItemTexts | closing_briefing/source_tools_adapter.py:777-801 | one text per item, in order |
| SourceToolsAdapter.FormatToolResultForLlm | closing_briefing/source_tools_adapter.py:766-809 | the loop's text is the result's text |
| SourceToolsAdapter.NotLoadedAnswers | closing_briefing/source_tools_adapter.py:404-436 | a search whose tool is not loaded answers with a message and logs nothing; an unknown name is an error that logs nothing |
| SourceToolsAdapter.NothingLoaded | closing_briefing/source_tools_adapter.py:404-707 | with no tool loaded no call creates a reference, and the summary lists no source |
| SourceToolsAdapter.NoInfos | closing_briefing/source_tools_adapter.py:692-705 | with no tool loaded the summary lists nothing |
| SourceToolsAdapter.ReturnedAreLogged | closing_briefing/source_tools_adapter.py:404-707 | every call logs exactly the references it returns, one per listed row, and an error or missing tool logs none |
| SourceToolsAdapter.CalendarFiltered | closing_briefing/source_tools_adapter.py:476-507 | the calendar rows are, in order, exactly the found events containing the date filter when given and with the importance asked for unless "all" |
| SourceToolsAdapter.NewsLimited | closing_briefing/source_tools_adapter.py:541-578 | the news rows are a prefix of the provider's articles: 10 or all by default, at most `limit` for a non-negative limit, all but the last `-limit` for a negative one |
| SourceToolsAdapter.NewsRows | closing_briefing/source_tools_adapter.py:553-559 | the news rows are the provider-filtered articles cut by the limit |
| SourceToolsAdapter.CutBounds | closing_briefing/source_tools_adapter.py:559 | the slice `[:limit]` is a prefix: the first `limit`, or all but the last `-limit` |
| SourceToolsAdapter.SecFiltered | closing_briefing/source_tools_adapter.py:655-668 | the SEC rows are, in order, exactly the filings whose form type equals the one asked for, ignoring case |
| SourceToolsAdapter.SourceInfosExact | closing_briefing/source_tools_adapter.py:692-705 | the summary lists each loaded tool once with its count, in load order, and nothing not loaded |
| SourceToolsAdapter.SummaryListsLoaded | closing_briefing/source_tools_adapter.py:686-707 | every loaded tool appears in the summary, once |
| SourceToolsAdapter.InjectiveNames | closing_briefing/source_tools_adapter.py:692-705 | entries with distinct names have as many names as entries |
| SourceToolsAdapter.ResultTextShape | closing_briefing/source_tools_adapter.py:766-809 | an error comes first, then a missing tool's message, then "No data found." for empty rows; a printed record never shows an underscore key, and one with a source file or type is tagged |
| Agent.RunSearch | validation_agent/base.py:176-187 | `search(query)` answers what the tool's own class answers in its current state |
| Agent.RunValidate | validation_agent/base.py:189-200 | `validate_claim` answers what the tool's own class answers in its current state |
| Agent.ToolSourceType | validation_agent/base.py:338-342 | a leading `search_` is dropped from a tool name, any other name is the source type itself |
| Agent.MergeAllSpec | validation_agent/base.py:422-449 | the merged counts are the sums over the validators that returned, the lists their concatenation in run order with one error line per raise, and citations are complete exactly when every returned result says so |
| Agent.MergeAudience | validation_agent/base.py:440-443 | one merge replaces the fitness and its feedback with a returned result's exactly when that fitness comes first in the order; a raise or a later fitness leaves both as they were |
| Agent.MergeAllFitness | validation_agent/base.py:440-443 | the merged fitness is GOOD or a returned fitness, is at or before every returned one in string order, and carries the feedback of a result with that fitness |
| Agent.MergedFitnessBounds | validation_agent/base.py:440-443 | the merged fitness is never POOR, and one EXCELLENT result makes it EXCELLENT |
| Agent.OutcomesRegistered | validation_agent/base.py:420-427 | every validator that ran was registered under a requested name and ran on the given script; unknown names are skipped |
| Agent.ScriptId | validation_agent/base.py:413 | a non-empty script id is kept, otherwise `script_` plus the timestamp |
| Agent.ValidationAgent.constructor | validation_agent/base.py:289-292 | a new agent has no tools and no validators |
| Agent.ValidationAgent.RegisterSourceTool | validation_agent/base.py:294-297 | the tool is stored under its source type, replacing any earlier one; validators are unchanged |
| Agent.ValidationAgent.RegisterValidator | validation_agent/base.py:299-302 | the validator is stored under its type, replacing any earlier one; tools are unchanged |
| Agent.ValidationAgent.ExecuteTool | validation_agent/base.py:327-360 | an unregistered source type gives an error, otherwise the type, the query, the tool's results and their count |
| Agent.ValidationAgent.ValidateClaim | validation_agent/base.py:362-389 | an unregistered source type gives an ERROR match, otherwise the tool's verdict |
| Agent.ValidationAgent.Validate | validation_agent/base.py:391-463 | the result is the merge of the requested (or all) validators' outcomes, valid exactly when no claim is invalid, citations are complete and the fitness is EXCELLENT or GOOD |
| ValidationTypes.Field | validation_agent/base.py:336 | a missing key reads as the empty string |
| ValidationTypes.Or | validation_agent/source_tools.py:1110 | Python's `a or b` on strings is one of the two, and empty only when both are |
| ValidationTypes.NoData | validation_agent/base.py:47-58 | a `SourceMatch` built without data has the given claim, type, reference, status and confidence and no data or correction |
| ValidationTypes.WithData | validation_agent/base.py:47-58 | a `SourceMatch` built with data carries exactly that record and no correction |
| ValidationTypes.NewResult | validation_agent/base.py:60-84 | a fresh `ValidationResult` has zero counts, empty lists, GOOD fitness, complete citations and is valid |
| ValidationTypes.LexLessIrreflexive | validation_agent/base.py:441 | no string is less than itself |
| ValidationTypes.LexLessTransitive | validation_agent/base.py:441 | string `<` is transitive |
| ValidationTypes.LexLessTotal | validation_agent/base.py:441 | of two different strings one is less than the other |
| ValidationTypes.LexLessOrder | validation_agent/base.py:441 | string `<` is a strict total order |
| ValidationTypes.FitnessOrder | validation_agent/base.py:35-40 | on the four fitness values the string order is excellent, fair, good, poor |
| ValidationTypes.CountStatus | validation_agent/validators.py:245-252 | a status count never exceeds the number of matches |
| ValidationTypes.CountsWithinTotal | validation_agent/validators.py:245-252 | valid, invalid and not-found counts together never exceed the total |
| ValidationTypes.CountSnoc | validation_agent/validators.py:244-252 | appending a match raises the count of its own status by one and no other |
| ValidationTypes.CountAppend | validation_agent/base.py:432-435 | the counts of two match lists add up |
| ValidationTypes.TallyStep | validation_agent/validators.py:244-252 | one turn of the tally loop appends the match, adds one to the total and one to the counter of its status |
| ValidationTypes.Matches | validation_agent/validators.py:228-244 | one match per claim, in order |
| ValidationTypes.CountPartition | validation_agent/base.py:26-32 | every match has exactly one of the five statuses |
| Validators.ToolNameSource | validation_agent/validators.py:112-124 | a name in the fixed table maps to its entry, any other `search_` name to what follows the prefix, anything else to nothing |
| Validators.ToolNameSourceStrips | validation_agent/validators.py:112-124 | the fixed table agrees with stripping `search_`: a name maps to a source exactly when it has that prefix |
| Validators.Take | validation_agent/validators.py:137 | `results[:10]` is a prefix of at most ten items, all of them when there are fewer |
| Validators.ToolRespond | validation_agent/validators.py:97-142 | an error exactly when the name names no registered source, else the query, the first ten results and the full count |
| Validators.ExecuteSourceTool | validation_agent/validators.py:97-142 | the method answers the tool response the registered tools define |
| Validators.Replies | validation_agent/validators.py:76-88 | one tool message per tool call, in order |
| Validators.ConverseBounds | validation_agent/validators.py:62-94 | the model is asked at most `max_tool_iterations` times and at least once, each call leaves a message, and the conversation only grows |
| Validators.ConverseDirectAnswer | validation_agent/validators.py:89-91 | a reply without tool calls ends the loop with its text |
| Validators.ConverseStep | validation_agent/validators.py:75-88 | a reply with tool calls continues the loop from the answered calls |
| Validators.AnswerCalls | validation_agent/validators.py:76-88 | the inner loop appends one tool message per call, in order |
| Validators.Round | validation_agent/validators.py:63-91 | one iteration either returns the model's text or leaves the conversation the rest of the loop continues from |
| Validators.CallLlmWithTools | validation_agent/validators.py:39-94 | the loop returns the text and the messages of the conversation, the last message's content when the rounds run out |
| Validators.ParseReply | validation_agent/validators.py:262-280 | a fenced JSON block that decodes wins; otherwise the whole reply, when it decodes; a reply that decodes neither way gives the validator's fallback |
| Validators.MapStatus | validation_agent/validators.py:282-291 | each status name in any case maps to its status, everything else to NOT_FOUND |
| Validators.MapStatusValue | validation_agent/validators.py:282-291 | mapping a status's own value gives the status back |
| Validators.FactMatch | validation_agent/validators.py:232-242 | a claim becomes a match with its text, confidence and mapped status |
| Validators.FactResultCounts | validation_agent/validators.py:231-252 | one match per parsed claim, and valid, invalid, not-found, partial and error counts partition the total |
| Validators.FactFallback | validation_agent/validators.py:278-280 | a reply that does not decode counts no claims and becomes the summary |
| Validators.TallyClaims | validation_agent/validators.py:231-252 | the claim loop leaves the matches of the claims and their tally |
| Validators.FactFromReply | validation_agent/validators.py:226-260 | the validator's result for a reply, or the raised message as its one error |
| Validators.FactValidate | validation_agent/validators.py:205-260 | the script and the prompt go to the model with the tools, ten rounds at most, and the reply is tallied |
| Validators.MapFitness | validation_agent/validators.py:450-458 | each fitness name in any case maps to its value, everything else to GOOD |
| Validators.MapFitnessValue | validation_agent/validators.py:450-458 | mapping a fitness's own value gives the fitness back |
| Validators.FeedbackEmpty | validation_agent/validators.py:410-425 | feedback is empty exactly when there are no strengths, improvements or issues |
| Validators.AudienceFallback | validation_agent/validators.py:434-448 | a reply that does not decode rates the script GOOD with no feedback |
| Validators.BuildFeedback | validation_agent/validators.py:410-423 | the feedback loop builds the strengths, improvements and issue blocks in that order |
| Validators.AudienceFromReply | validation_agent/validators.py:403-432 | the audience validator's result for a reply, or the raised message as its one error |
| Validators.MissingClaims | validation_agent/validators.py:562-563 | one entry per uncited claim, its `claim` or the empty string |
| Validators.CitationFallback | validation_agent/validators.py:573-587 | a reply that does not decode counts the citations complete with none missing |
| Validators.CitationFromReply | validation_agent/validators.py:555-571 | the citation validator's result for a reply, or the raised message as its one error |
| KeySort.SortDescCorrect | closing_briefing/data_loader.py:421-424 | `sort(key=..., reverse=True)` returns its input reordered, greatest key first |
| KeySort.SortDescStable | closing_briefing/data_loader.py:421-424 | the descending sort is stable: the items of any one key keep their input order |
| KeySort.TakeSortedDescCutoff | closing_briefing/data_loader.py:427 | what `[:n]` leaves out of a descending list sorts no higher than anything it keeps |
| DateSort.SortDescCorrect | te_calendar_scraper/scraper/fomc_scraper_new.py:800 | sorting meetings by release date with `reverse=True` returns them reordered, newest first |
| DateSort.SortDescStable | te_calendar_scraper/scraper/fomc_scraper_new.py:800 | the sort is stable: meetings released on the same date keep their input order |
| DateSort.SortDescIsKeySort | te_calendar_scraper/scraper/fomc_scraper_new.py:800 | sorting by date is the general stable descending sort with date order as the key order |

## Left out

- PyStr.Lower, PyStr.Upper, PyStr.Capitalize: case mapping is ASCII only. Python maps every Unicode letter. The pipeline compares English titles, tickers and keywords, where the two agree.
- PyStr.IsDigit, PyStr.IsDigits: only the ASCII digits count. Python's `str.isdigit()` also accepts other Unicode digits, such as superscripts and digits of other scripts. The texts scanned are numeric cells, dates and impact codes written in ASCII.
- BriefingLoader.ParseInt: accepts ASCII digits only and rejects `_` digit separators. Python's `int()` reads `"1_000"` as 1000 and accepts other Unicode decimal digits. The impact codes it reads are plain ASCII numbers.
- BriefingTools.MacroEntry: an indicator's value and date are read from the flat `value` and `date` fields only. The source falls back to the first entry of a `values` or `dates` list. It evaluates that fallback eagerly, so an empty `values` or `dates` list raises IndexError even when `value` or `date` is present. List-valued indicator records are not modelled.
- BriefingTools.MacroEntry / NewsEntry / EarningsEntry: the `meta` dictionary attached to each created reference is not modelled. `Reference` has no such field, and `closing_briefing/graph.py` rebuilds references without it. Nested values (`meta`, `key_drivers`) are held as their JSON text.
- Exception messages: a handler that raises is reported by the exception's class name (`Raised("AttributeError")`). The source reports `str(e)`, the exception's message text, which is not modelled. This affects `BriefingTools` and `SourceToolsAdapter`.
- ScriptValidator.DistinctKeys: `list(set(...))` gives the cited keys in an unspecified order. The model keeps them in first-occurrence order. Only membership and the absence of repeats are stated.
- FomcScraperNew.EnrichMeetingFromFallback: returns the enriched meeting as a new value. The source updates the `MeetingMaterial` object in place, so aliasing of that object is not modelled.
- FomcFilenames: `test_fomc_filenames.py:17` imports `MeetingMaterial` from `fomc_scraper`, which defines no such class. The model uses `FomcScraperNew.MeetingMaterial`, the class the naming applies to.
- JSON parsing (`json.load`, `json.loads`, `json.dumps`) is a parameter, given as `Option` results or codec fields.
- Network and storage calls are parameters: the DynamoDB scan and its pagination, HTTP requests, Playwright and BeautifulSoup page access, and base64 and zlib decoding. Of the indicator payload decoding, only the XOR step is modelled.
- Date and time parsing (`strptime`, `dateutil`, `datetime.now()`) and time-zone conversion are parameters. So is `str.title()`, and so is `urljoin` in the calendar scraper.
- Floating point: confidences and scores are integer hundredths. Indicator values are opaque cells. Whether a cell reads as a float literal, the formatting of a number, and the subtraction of two cells are parameters of `IndicatorsDom.Services`.
- Regular-expression scans whose captures feed the validators are parameters:
  - the cited-ID scans of the investment validator;
  - the fenced-JSON extraction of the LLM validators.
  The release-date patterns of the FOMC scrapers are modelled.
- Prompts and LLM message texts are not modelled. A conversation is a sequence of abstract turns, and the language model is an oracle over it.
- Summary and report texts (`_generate_summary`, `summary` strings, logging) are parameters or not modelled.
- Dict iteration order: dictionaries the model iterates are insertion-ordered association lists (`PyDict`). The result maps of the loader are Dafny maps, because no later step iterates them.
- `ClosingBriefingDataLoader._load_calendar_csv`, `_load_indicators_csv`, `_load_news_from_directory`: these read CSV and JSON files; what they yield is given. The file reads and the per-row field copying are not modelled.
- InvestmentValidator: the market-data part of `InvestmentBriefingSources`, and its matching, are not modelled. Errors in the shape of nested `from_dict` data are merged into one `WrongShape` outcome.
- ScriptContentValidator and its source-gathering helper: the content verdicts come from the LLM. Only its two label mappings are modelled: `ContentStatus` for a claim verdict and `ContentFitness` for the audience verdict. Its prompt, its reply parsing and its result assembly are not modelled.
- The `get_tool_definition` methods and `create_briefing_tools`: constant JSON schemas offered to the LLM, not modelled.
- ArticleSourceTool: loading from DynamoDB is a parameter. The tool is given the items.
- BriefingScriptSourceTool: the `_scripts` field keeps raw scripts for logging and is not modelled.
- AudienceValidator, CitationValidator: the OpenAI call is the oracle. The model starts from the reply text.
- `save_output`, `main` argument parsing beyond the mode check, and the CSV and JSON writers: file output is not modelled.
- `EconBriefingDataLoader`, `DynamoDBNewsLoader`, `S3DataLoader`, `create_sample_source_data`: loaders outside the closing briefing's own loader, not modelled.
- `SourceConfig`, `create_tool_executor`, `_init_source_tools`: building tools from paths reads files. The adapter is given the loaded tools.
- SourceToolsAdapter: the `meta` dictionary of a reference is not modelled.
