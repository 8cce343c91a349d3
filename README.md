# Content Scorecard core, modelled in Dafny

The project is a model of the content-evaluation core of the AI Content Analyser. The analyser scores a text against guidelines. Guidelines are categories of weighted metrics. Each metric is scored 1 to 5 by a language model, and the metric scores are combined into weighted category and overall scores.

The model covers everything around the language-model call:

- the pydantic data model and its bounded fields;
- the guideline weight validation and the flattening into metrics;
- the coordinator's pre-dispatch checks, metric filter, outcome gathering and two-level weighted average;
- the metric evaluator's prompt truncation, layered response parsing, score clamping and confidence formulas;
- the LLM client's error classes, retry loop and provider factory;
- the MCP side's request handler (result cache, progress table, validation flow), tool registry, response formatter and coordinator adapter;
- report filenames, format selection and the Markdown report;
- configuration loading (environment over TOML) and configuration validation;
- the web page's content and upload checks and the radar chart's closing step;
- the sample store.

The request handler takes its coordinator as a parameter that yields an outcome. The outcome is a result, a timeout, a raised exception, or a returned error dictionary. The last is what the coordinator adapter gives back on failure, and the MCP server passes the adapter to the handler. `CoordinatorAdapting.AsCoordinatorOutcome` turns the adapter's result into that outcome.

The language model itself is a parameter. So are `json.loads`, the parsing regexes, Jinja rendering, `hashlib.md5`, the JSON-schema checker, float formatting, UTF-8 decoding, TOML parsing and the clock.

One Dafny module per source file:

| module | source |
|---|---|
| `Models` | core/config/models.py |
| `GuidelinesStore` | core/storage/guidelines.py |
| `Coordinator` | agents/coordinator_agent.py and core/agents/coordinator_agent.py |
| `MetricEvaluator` | core/agents/metric_evaluator.py |
| `LlmClient` | agents/llm_client.py |
| `RequestHandling` | core/mcp/request_handler.py |
| `ToolRegistration` | core/mcp/tool_registry.py |
| `ResponseFormatting` | core/mcp/response_formatter.py |
| `CoordinatorAdapting` | core/mcp/coordinator_adapter.py |
| `Reports` | core/storage/reports.py |
| `Settings` | config/settings.py |
| `WebPage` | main.py |
| `Samples` | core/storage/samples.py |

`Wrappers` (Option, Result), `Text` (strip, lower, title, join), `Assoc` (an insertion-ordered dictionary as a sequence of pairs), `Sorting` (Python's stable `sorted`) and `Grouping` (group-by-category in first-appearance order) are shared helpers.

Python dictionaries whose order is observable are sequences of pairs; dictionaries whose order is not observable are `map`s. Weights and scores are exact `real`s where the source uses IEEE 754 doubles; "## Left out" lists the members whose statements rounding changes. Objects whose fields the source updates in place are classes: `CoordinatorAgent`, `RequestHandler`, `ToolRegistry`, `CoordinatorAdapter`, `ConfigurationManager` and `SampleStorage`.

The two coordinator copies are one class with two named constructors. They differ only in the default concurrency bound: 3 in agents/ and 14 in core/agents/.

## Model

| member | source | states |
|---|---|---|
| Models.ParseProvider | core/config/models.py:12 | A provider text is accepted iff it is one of "openai", "ollama", "lmstudio", and the accepted value names that text |
| Models.ProviderNameRoundTrip | core/config/models.py:12 | Parsing a provider's name gives that provider back |
| Models.NewLLMConfig | core/config/models.py:8-16 | Construction succeeds iff the provider is a known literal and 0 ≤ temperature ≤ 2; the fields are the given ones |
| Models.NewMetric | core/config/models.py:37-42 | A metric is built iff its weight lies in [0, 1] |
| Models.NewMetricResult | core/config/models.py:45-53 | A metric result is built iff the score is an integer in [1, 5] and the confidence lies in [0, 1]; every field is kept |
| Models.DefaultMetricResult | core/config/models.py:51-53 | Without the optional fields, the example lists are empty and the confidence is 1.0 |
| Models.NewEvaluationResult | core/config/models.py:56-63 | An evaluation result is built iff the overall score lies in [1, 5]; every field is kept |
| Models.DefaultAppConfig | core/config/models.py:66-71 | The defaults are "guidelines.yaml", "reports" and "light" |
| GuidelinesStore.NewGuidelineMetric | core/storage/guidelines.py:10-13 | A guideline metric is built iff its weight lies in [0, 1] |
| GuidelinesStore.NewGuidelineCategory | core/storage/guidelines.py:16-20 | A category is built iff its weight is non-negative |
| GuidelinesStore.WeightSumPermutation | core/storage/guidelines.py:22-25 | The weight sum does not depend on the order of the metrics |
| GuidelinesStore.ValidateMetricWeightsPermutation | core/storage/guidelines.py:22-25 | The weight check gives the same verdict for any reordering of a category's metrics |
| GuidelinesStore.OverweightCategoryRejected | core/storage/guidelines.py:22-25 | Weights 0.3 and 0.8 fail the within-0.01-of-1 check |
| GuidelinesStore.ValidateStructure | core/storage/guidelines.py:32-42 | Gives false iff there are no categories, and true iff there are categories and every one passes the weight check; otherwise the error names the first failing category |
| GuidelinesStore.MetricOf | core/storage/guidelines.py:49-54 | A flattened metric carries the metric's name, description and weight and its category's name |
| GuidelinesStore.CategoryMetrics | core/storage/guidelines.py:48-55 | One category flattens to one metric per entry, in dictionary order |
| GuidelinesStore.ToMetricsList | core/storage/guidelines.py:44-56 | The nested loops produce the flattening: category order, then metric order |
| GuidelinesStore.ExpandLength | core/storage/guidelines.py:44-56 | The flattened list has as many metrics as all categories together |
| GuidelinesStore.ExpandIndex | core/storage/guidelines.py:44-56 | Metric j of category i sits at position (metrics before category i) + j |
| GuidelinesStore.ExpandMember | core/storage/guidelines.py:44-56 | A metric is in the flattened list iff it comes from some metric of some category, with that category's name and its own weight and description |
| GuidelinesStore.DefaultCategoriesValid | core/storage/guidelines.py:59-152 | The default guidelines have 5 categories, each of whose weights pass the check |
| GuidelinesStore.DefaultCategoryNamesDistinct | core/storage/guidelines.py:61-150 | The default category names are distinct |
| GuidelinesStore.DefaultGuidelinesWellFormed | core/storage/guidelines.py:59-152 | The default guidelines have distinct keys at both levels |
| GuidelinesStore.DefaultMetricCount | core/storage/guidelines.py:59-152 | The default guidelines hold 14 metrics |
| Coordinator.WeightedSumBounds | agents/coordinator_agent.py:183-190 | When every score lies in [lo, hi], the running sum lies between lo and hi times the running weight |
| Coordinator.MeanBounds | core/agents/coordinator_agent.py:178-193 | A category score lies between its category's least and greatest metric score |
| Coordinator.ScoresOfRange | agents/coordinator_agent.py:178-193 | Every category score lies in [1, 5] |
| Coordinator.ScoresOfGet | agents/coordinator_agent.py:178-193 | A group receives a score iff it has results of positive total weight, and that score is their weighted mean |
| Coordinator.CategoryScoreIs | agents/coordinator_agent.py:161-193 | A category's score is Σ(score·weight)/Σ(weight) over exactly that category's results; the category is absent when that weight is 0 |
| Coordinator.OverallSumBounds | agents/coordinator_agent.py:196-202 | With category scores in [1, 5], the overall sum lies between 1 and 5 times the overall weight |
| Coordinator.OverallRange | agents/coordinator_agent.py:195-209 | The overall score is 0.0 iff the category weights (default 1.0) sum to 0, and lies in [1, 5] otherwise |
| Coordinator.ScoresOfNothing | agents/coordinator_agent.py:161-209 | No results give (0.0, {}) |
| Coordinator.WorkedExample | agents/coordinator_agent.py:161-209 | Scores 4 and 3 at weights 0.6 and 0.4, plus a score of 5 in a second category, with category weights 1.0 and 1.5, give category scores 3.6 and 5.0 and an overall score of 4.44 |
| Coordinator.WorkedGroups | agents/coordinator_agent.py:161-167 | Two results of one category and one of another group into two lists in order of first appearance |
| Coordinator.WorkedCategoryScores | agents/coordinator_agent.py:177-193 | Those groups score 3.6 and 5.0 |
| Coordinator.WorkedWeights | agents/coordinator_agent.py:173-175 | Category weights 1.0 and 1.5 are read in guideline order |
| Coordinator.WorkedOverall | agents/coordinator_agent.py:195-205 | Category scores 3.6 and 5.0 at weights 1.0 and 1.5 combine to 4.44 |
| Coordinator.WeightForGet | agents/coordinator_agent.py:200 | A category's weight is the one recorded for it, and 1.0 when none is |
| Coordinator.FirstFailure | agents/coordinator_agent.py:93-96 | The first failing outcome in dispatch order, or nothing iff every outcome succeeded |
| Coordinator.Gather | agents/coordinator_agent.py:93-101 | Gathering fails iff some evaluation failed and none succeeded |
| Coordinator.GatherAsWritten | agents/coordinator_agent.py:93-101 | As written, gathering fails iff any evaluation failed |
| Coordinator.SuccessesAllOk | agents/coordinator_agent.py:94 | When nothing fails, the results are the outcomes in order |
| Coordinator.SuccessesMember | agents/coordinator_agent.py:98-99 | A result is kept iff it is a successful outcome |
| Coordinator.GatherAllSucceed | agents/coordinator_agent.py:94 | When nothing fails, gathering gives one result per dispatched metric, in order |
| Coordinator.PartialFailureKeepsSuccesses | agents/coordinator_agent.py:97-101 | One success is enough: gathering then returns exactly the successful results |
| Coordinator.PartialFailureAsWritten | agents/coordinator_agent.py:97-101 | Two successes and one failure: the code as written raises "All metric evaluations failed", while the corrected rule returns the two results |
| Coordinator.FilterByNames | agents/coordinator_agent.py:75 | The filter keeps exactly the metrics whose name is listed |
| Coordinator.FilterByNamesAppend | agents/coordinator_agent.py:75 | The filter preserves expansion order |
| Coordinator.SelectMetrics | agents/coordinator_agent.py:74-75 | A missing or empty filter keeps every metric |
| Coordinator.PreDispatch | agents/coordinator_agent.py:65-77 | Blank content gives "Content cannot be empty", then no metrics gives "No metrics found in guidelines", then a filter with no match gives "None of the specified metrics …"; success iff the content is not blank and the selection is non-empty |
| Coordinator.Outcomes | agents/coordinator_agent.py:87-90 | Exactly one evaluation per selected metric, in order |
| Coordinator.CoordinatorAgent.Dispatch | agents/coordinator_agent.py:84-90 | The task loop creates one evaluation per metric, in order, and awaits each |
| Coordinator.CoordinatorAgent.constructor | agents/coordinator_agent.py:27-42 | The client, concurrency bound and template are stored |
| Coordinator.CoordinatorAgent.AgentsDefault | agents/coordinator_agent.py:30 | The default concurrency bound is 3 |
| Coordinator.CoordinatorAgent.CoreDefault | core/agents/coordinator_agent.py:30 | The default concurrency bound is 14 |
| Coordinator.CoordinatorAgent.GroupResults | agents/coordinator_agent.py:161-167 | The grouping loop builds the group-by-category of the results |
| Coordinator.CoordinatorAgent.ReadWeights | agents/coordinator_agent.py:173-175 | The loop records each category's weight |
| Coordinator.CoordinatorAgent.SumCategory | agents/coordinator_agent.py:183-190 | The accumulators end as the weighted score sum and the total weight |
| Coordinator.CoordinatorAgent.ScoreCategories | agents/coordinator_agent.py:177-193 | The loop assigns each scored group its weighted mean |
| Coordinator.CoordinatorAgent.CombineScores | agents/coordinator_agent.py:195-207 | The loop computes the category-weighted overall score, or 0.0 |
| Coordinator.CoordinatorAgent.CalculateScores | agents/coordinator_agent.py:147-209 | `_calculate_scores` returns the aggregation whose bounds the lemmas above prove |
| Coordinator.CoordinatorAgent.EvaluateContent | agents/coordinator_agent.py:45-121 | A failed pre-check dispatches nothing; otherwise it dispatches exactly the selected metrics, gathers by the corrected rule (Gather), aggregates, and records metrics_evaluated = number of results and metrics_requested = number selected; the content hash is a function of the content alone |
| Coordinator.OverallRejectedIffWeightless | agents/coordinator_agent.py:104-118 | The result model rejects the overall score iff the category weights sum to 0 |
| MetricEvaluator.TruncateContent | core/agents/metric_evaluator.py:191-195 | Content of up to 8000 characters is unchanged; longer content becomes its first 8000 characters plus the truncation marker |
| MetricEvaluator.TruncateContentBounds | core/agents/metric_evaluator.py:191-195 | The prompt content is at most 8000 characters plus the marker, and starts with the kept prefix |
| MetricEvaluator.BraceSpan | core/agents/metric_evaluator.py:230 | The greedy match runs from the first `{` to the last `}`, and exists iff a `{` precedes a `}` |
| MetricEvaluator.DropBeforeOpen | core/agents/metric_evaluator.py:236 | Everything before the first `{` is removed |
| MetricEvaluator.DropAfterClose | core/agents/metric_evaluator.py:237 | Everything after the last `}` is removed |
| MetricEvaluator.CleanBraceSpan | core/agents/metric_evaluator.py:230-237 | Cleaning leaves a greedy brace span unchanged |
| MetricEvaluator.OpenFirstKept | core/agents/metric_evaluator.py:236 | Text that already starts with `{` loses nothing at its start |
| MetricEvaluator.CloseLastKept | core/agents/metric_evaluator.py:237 | Text that already ends with `}` loses nothing at its end |
| MetricEvaluator.LocateData | core/agents/metric_evaluator.py:222-247 | Whole-text JSON first, else a fenced json block, else the greedy brace span, cleaned; manual parsing iff neither candidate decodes |
| MetricEvaluator.LocateResultData | core/agents/metric_evaluator.py:218-247 | The try/except chain assigns the data and the manual flag the fallback specification gives |
| MetricEvaluator.ManualConfidenceBounds | core/agents/metric_evaluator.py:309-393 | The manual confidence lies in [0.1, 0.7]; it is 0.7 iff a score and all four sections are found, and at most 0.5 without a score |
| MetricEvaluator.ManualParseResponse | core/agents/metric_evaluator.py:298-395 | The in-place updates of the result dictionary produce the manual specification |
| MetricEvaluator.ManualParseTexts | core/agents/metric_evaluator.py:309-344 | The score, the reasoning and the advice are the found ones, with confidence 0.7 or 0.5 less 0.1 per missing text |
| MetricEvaluator.SectionItems | core/agents/metric_evaluator.py:350-362 | A found section yields its stripped list items, else its quoted strings, else the whole section, and never nothing |
| MetricEvaluator.SectionExamples | core/agents/metric_evaluator.py:346-366 | A missing section gives no examples; a found one gives at least one |
| MetricEvaluator.TruncateReal | core/agents/metric_evaluator.py:251 | `int()` truncates toward zero |
| MetricEvaluator.ScoreValue | core/agents/metric_evaluator.py:251 | A missing score reads as 0 |
| MetricEvaluator.ClampScore | core/agents/metric_evaluator.py:252-254 | Scores in [1, 5] are kept, lower ones become 1 and higher ones 5 |
| MetricEvaluator.ClampExamples | core/agents/metric_evaluator.py:252-254 | 10 becomes 5, −1 and 0 become 1, and 3 stays 3 |
| MetricEvaluator.TextField | core/agents/metric_evaluator.py:256-257 | A missing reasoning or advice gets its placeholder |
| MetricEvaluator.ExampleList | core/agents/metric_evaluator.py:259-265 | A missing list is [], and a non-list value v becomes [str(v)] |
| MetricEvaluator.JsonConfidenceBounds | core/agents/metric_evaluator.py:271-282 | The JSON-path confidence lies in [0.1, 1.0], and is 1.0 iff reasoning, advice and both example lists are all present |
| MetricEvaluator.JsonConfidenceAllMissing | core/agents/metric_evaluator.py:271-282 | With everything missing, the floor of 0.1 applies |
| MetricEvaluator.BuildResult | core/agents/metric_evaluator.py:249-296 | The result is built iff every field converts and the chosen confidence lies in [0, 1]; the fields are the clamped score, the defaulted texts and the coerced lists; a failure reads "Failed to parse evaluation response: …" |
| MetricEvaluator.JsonPathConfidence | core/agents/metric_evaluator.py:267-282 | On the JSON path the confidence is the completeness formula |
| MetricEvaluator.ParseResponse | core/agents/metric_evaluator.py:205-296 | The step-by-step parse equals the parse specification |
| MetricEvaluator.BareJsonParses | core/agents/metric_evaluator.py:222-224 | A reply that decodes whole takes the whole-JSON path |
| MetricEvaluator.FencedJsonParses | core/agents/metric_evaluator.py:225-238 | Otherwise a decodable fenced block takes the extracted path |
| MetricEvaluator.ManualDictExtracts | core/agents/metric_evaluator.py:268-269 | On the manual path the manual confidence replaces the formula, and the fields are the manual ones |
| MetricEvaluator.ManualPathSucceeds | core/agents/metric_evaluator.py:242-247 | Manual parsing never fails; its confidence is below 1 and its score is the clamped found digit, or 1 |
| MetricEvaluator.ManualRawValues | core/agents/metric_evaluator.py:249-282 | Every entry of the manual dictionary converts back to the value the manual parser found, including its confidence |
| MetricEvaluator.ScoreOnlyReply | core/agents/metric_evaluator.py:251-282 | A reply holding only a score gets the placeholders, empty lists and confidence 0.1 |
| MetricEvaluator.RequestFor | core/agents/metric_evaluator.py:122-164 | Structured output is requested iff the client is the OpenAI client; the prompt renders the truncated content |
| MetricEvaluator.EvaluateMetric | core/agents/metric_evaluator.py:104-177 | Blank content raises before any call; a client error propagates unchanged; a parse failure becomes "Failed to evaluate metric NAME: …" |
| MetricEvaluator.EvaluatorCallBound | core/agents/metric_evaluator.py:153-164 | With max_retries = 2 the evaluator makes 1 to 3 calls |
| LlmClient.OrDefault | agents/llm_client.py:40 | An empty or missing hint falls back to the default |
| LlmClient.NewError | agents/llm_client.py:38-74 | Each error kind keeps its message and gets its own default hint when none is given |
| LlmClient.ErrorTextParts | agents/llm_client.py:41 | The error text is the message, the separator, then the hint |
| LlmClient.ErrorTextDefault | agents/llm_client.py:38-74 | Without a hint the text is "MESSAGE \| Troubleshooting: " plus the kind's default |
| LlmClient.UnexpectedError | agents/llm_client.py:136-139 | Any other exception becomes a plain client error "Unexpected error: …" |
| LlmClient.GenerateWithRetry | agents/llm_client.py:100-142 | The attempt loop produces the retry specification: result, number of calls, and delays |
| LlmClient.RetryCallBounds | agents/llm_client.py:112 | At least 1 and at most max_retries + 1 calls, with one delay fewer than calls |
| LlmClient.RetryEarlierCalls | agents/llm_client.py:120-135 | Every call but the last raised a transient error, and the delay after attempt k follows that error's formula |
| LlmClient.RetryLastCall | agents/llm_client.py:112-139 | The last call decides the result: its response, its re-raised transient error on the final attempt, or any other error wrapped |
| LlmClient.FirstCallSucceeds | agents/llm_client.py:112-119 | A successful first call returns after exactly one call and no delay |
| LlmClient.PersistentTransientError | agents/llm_client.py:120-135 | A persistent transient error makes max_retries + 1 calls and re-raises the last error |
| LlmClient.NoAttempts | agents/llm_client.py:141-142 | A negative retry count makes no call and raises "Max retries exceeded" |
| LlmClient.DelayBounds | agents/llm_client.py:123-131 | The delay is base·2^k, plus jitter in [0, 1] only for rate limits |
| LlmClient.CreateLlmClient | agents/llm_client.py:145-157 | The factory succeeds iff the provider is known, and otherwise raises "Unsupported LLM provider: …" |
| LlmClient.CreateLlmClientTotal | agents/llm_client.py:145-155 | Every configured provider yields its own client |
| RequestHandling.RequestKey | core/mcp/request_handler.py:107-109 | The request string is the content plus ":all", or plus the sorted metric names joined by commas |
| RequestHandling.RequestIdOrderInsensitive | core/mcp/request_handler.py:95-112 | The request id does not depend on the order of the metric names |
| RequestHandling.RequestIdAll | core/mcp/request_handler.py:108 | A missing and an empty metric list give the same id |
| RequestHandling.CacheAfterAdd | core/mcp/request_handler.py:128-140 | Adding fails only where the source's `next(iter({}))` raises: a size limit ≤ 0 on an empty cache |
| RequestHandling.CacheAfterAddBounded | core/mcp/request_handler.py:135-140 | With a size limit of at least 1, the cache stays within the limit, keeps distinct keys and holds the new entry |
| RequestHandling.CacheEvictsOldest | core/mcp/request_handler.py:135-138 | A full cache loses only its oldest-inserted entry |
| RequestHandling.ProgressPercent | core/mcp/request_handler.py:193-195 | Progress is 0 when total ≤ 0 and lies in [0, 100] when 0 ≤ completed ≤ total |
| RequestHandling.ProgressExample | core/mcp/request_handler.py:193-195 | 3 of 5 gives 60 |
| RequestHandling.StatusOf | core/mcp/request_handler.py:178-207 | An unknown id gives "Request ID not found" (with the id in place of ID); otherwise the stored status, counts and progress |
| RequestHandling.InvalidNames | core/mcp/request_handler.py:240-241 | The invalid names are exactly the requested names not among the available ones |
| RequestHandling.FindMetric | core/mcp/request_handler.py:368-369 | The first metric with the name, or nothing iff none has it |
| RequestHandling.SummaryOf | core/mcp/request_handler.py:397-407 | The single-metric reply carries the result's name, category and score |
| RequestHandling.EarlyContentReply | core/mcp/request_handler.py:225-247 | Blank content, then a cache hit, then invalid metric names answer without the coordinator; the coordinator is called iff none of them applies |
| RequestHandling.EarlyMetricReply | core/mcp/request_handler.py:354-377 | Blank content, then a cache hit, then an unknown metric answer without the coordinator; an unknown metric lists the available ones |
| RequestHandling.FinishedContentIsCached | core/mcp/request_handler.py:265-272 | A finished evaluation is marked completed and cached under its id |
| RequestHandling.FailedContentNotCached | core/mcp/request_handler.py:262-283 | A timeout, an exception or a returned error dictionary leaves the cache alone; the request is marked "timeout", "error" or, for the returned dictionary, "completed", and that dictionary is the reply |
| RequestHandling.ReturnedErrorFailsMetric | core/mcp/request_handler.py:393-426 | A returned error dictionary makes the single-metric handler raise on `metric_results`: the reply is "Error evaluating metric: 'dict' object has no attribute 'metric_results'", the status "error", and nothing is cached |
| RequestHandling.FinishedMetricIsCached | core/mcp/request_handler.py:393-412 | A finished single-metric evaluation caches the summary of its first result |
| RequestHandling.RequestHandler.constructor | core/mcp/request_handler.py:68-93 | Empty cache and progress table, with the given settings |
| RequestHandling.RequestHandler.CheckCache | core/mcp/request_handler.py:114-126 | Returns the stored value iff the key is present |
| RequestHandling.RequestHandler.AddToCache | core/mcp/request_handler.py:128-141 | The cache becomes the evicting insert of the new entry; the progress table is unchanged |
| RequestHandling.RequestHandler.TrackRequestProgress | core/mcp/request_handler.py:143-155 | The request gets its total, 0 completed and "in_progress" |
| RequestHandling.RequestHandler.UpdateRequestProgress | core/mcp/request_handler.py:157-165 | An unknown id changes nothing; otherwise only the completed count changes |
| RequestHandling.RequestHandler.CompleteRequest | core/mcp/request_handler.py:167-176 | An unknown id changes nothing; otherwise only the status and end time change |
| RequestHandling.RequestHandler.GetRequestStatus | core/mcp/request_handler.py:178-207 | The reply is the status of the id in the progress table |
| RequestHandling.RequestHandler.FinishContentRequest | core/mcp/request_handler.py:253-283 | After the coordinator call, the reply, cache and status follow the outcome: a result is cached and "completed"; a timeout is "timeout"; an exception is "error"; a returned error dictionary is passed back, not cached, and "completed" |
| RequestHandling.RequestHandler.FinishMetricRequest | core/mcp/request_handler.py:382-426 | The same for a single metric, with the "no results" error; a returned error dictionary ends as "error" with the `metric_results` attribute error |
| RequestHandling.RequestHandler.HandleEvaluateContent | core/mcp/request_handler.py:209-283 | The early replies leave the state alone and skip the coordinator; otherwise the request is tracked with its total, evaluated once, then finished by its outcome, including the coordinator adapter's returned error dictionary |
| RequestHandling.RequestHandler.CheckContentRequest | core/mcp/request_handler.py:225-247 | The early checks give the blank, cached or invalid-metric reply the request specification names, or none |
| RequestHandling.RequestHandler.HandleEvaluateMetric | core/mcp/request_handler.py:338-426 | The same flow for one metric, tracked with a total of 1 |
| Sorting.SortStringsOrderInsensitive | core/mcp/request_handler.py:108 | `sorted` gives the same list for any two lists holding the same names with the same multiplicities |
| Sorting.SortByStable | core/mcp/response_formatter.py:226 | Sorting by score keeps the original order among equal scores |
| ToolRegistration.SchemaError | core/mcp/tool_registry.py:32-53 | A schema is refused iff it lacks "type", is an object without "properties", or fails the Draft 7 check, each with its message |
| ToolRegistration.AppendNew | core/mcp/tool_registry.py:194-195 | A tool is appended to a group's list only when absent, so the list stays duplicate-free |
| ToolRegistration.WithMember | core/mcp/tool_registry.py:193-195 | Only the target group changes, gaining the tool |
| ToolRegistration.CreatedGroupsKeys | core/mcp/tool_registry.py:253-259 | After loading, the groups are the old ones plus every configured one |
| ToolRegistration.CreatedGroupsLast | core/mcp/tool_registry.py:253-259 | A configured group is empty and has its last configured description |
| ToolRegistration.CreatedOrderSpec | core/mcp/tool_registry.py:253-259 | The group order lists each group once |
| ToolRegistration.LinkedOwnersOnlyLinkable | core/mcp/tool_registry.py:261-267 | A tool's group changes only through a configured pair whose tool and group both exist |
| ToolRegistration.LinkedOwnersLast | core/mcp/tool_registry.py:261-267 | The last linkable pair for a tool decides its group |
| ToolRegistration.LinkedGroupsWellFormed | core/mcp/tool_registry.py:261-267 | Linking keeps group lists duplicate-free and made of registered tools |
| ToolRegistration.ToolRegistry.constructor | core/mcp/tool_registry.py:83-88 | Every table starts empty |
| ToolRegistration.ToolRegistry.CreateGroup | core/mcp/tool_registry.py:162-173 | The group is (re)created with an empty tool list; nothing else changes |
| ToolRegistration.ToolRegistry.AddToolToGroup | core/mcp/tool_registry.py:175-201 | Succeeds iff both exist, and otherwise changes nothing; on success the tool is once in the list and mapped to the group |
| ToolRegistration.ToolRegistry.RegisterTool | core/mcp/tool_registry.py:90-126 | A bad schema changes nothing; otherwise the tool is stored under its name and, with a group, a missing group is created as "Tools related to GROUP" and the tool is added |
| ToolRegistration.ToolRegistry.GetTool | core/mcp/tool_registry.py:128-137 | The stored definition, named as asked, iff registered |
| ToolRegistration.ToolRegistry.ListTools | core/mcp/tool_registry.py:139-145 | The registered names, each once, in registration order |
| ToolRegistration.ToolRegistry.GetToolsByGroup | core/mcp/tool_registry.py:203-216 | An unknown group gives [] |
| ToolRegistration.ToolRegistry.ListGroups | core/mcp/tool_registry.py:218-224 | The group names, each once, in creation order |
| ToolRegistration.ToolRegistry.GetGroupInfo | core/mcp/tool_registry.py:226-243 | The group's name, description and tools iff it exists |
| ToolRegistration.ToolRegistry.CreateConfiguredGroups | core/mcp/tool_registry.py:253-259 | Creates every listed group, with its description or the default |
| ToolRegistration.ToolRegistry.LinkConfiguredTools | core/mcp/tool_registry.py:261-267 | Links only pairs whose tool and group both exist |
| ToolRegistration.ToolRegistry.LoadFromConfig | core/mcp/tool_registry.py:245-267 | Creates all groups first, then links |
| ToolRegistration.ValidateParameters | core/mcp/tool_registry.py:55-70 | The parameters come back unchanged iff the schema check accepts them; a ValidationError's text follows "Parameter validation failed: ", any other exception's text follows "Unexpected error during parameter validation: " |
| ToolRegistration.ToolRegistry.ValidateToolParameters | core/mcp/tool_registry.py:269-283 | An unknown tool gives "Tool 'NAME' not found"; a known tool's parameters go through its definition's validation against that tool's whole stored schema, and success returns them unchanged |
| ResponseFormatting.TruncateText | core/mcp/response_formatter.py:164-176 | Text within the limit is unchanged; longer text is cut to limit − 3 characters plus "..." |
| ResponseFormatting.TruncateFits | core/mcp/response_formatter.py:164-176 | For a limit of at least 3, the result fits, and a cut result has exactly the limit's length |
| ResponseFormatting.TruncateShortLimit | core/mcp/response_formatter.py:176 | Below 3 the negative slice makes the result longer than the limit |
| ResponseFormatting.FormatMetricResult | core/mcp/response_formatter.py:107-141 | The examples are present iff include_examples, and the confidence iff include_confidence |
| ResponseFormatting.Compact | core/mcp/response_formatter.py:84-94 | Reasoning and advice are at most 100 characters; at most one example per list, each at most 50 |
| ResponseFormatting.StrongestIsMaximum | core/mcp/response_formatter.py:188-192 | The strongest category has the maximum score |
| ResponseFormatting.WeakestIsMinimum | core/mcp/response_formatter.py:193 | The weakest category has the minimum score |
| ResponseFormatting.Weakest | core/mcp/response_formatter.py:192-193 | With at most one category the weakest is the strongest |
| ResponseFormatting.MetricScores | core/mcp/response_formatter.py:196 | One (name, score) pair per metric result |
| ResponseFormatting.LowestMetrics | core/mcp/response_formatter.py:226-229 | At most 3 metrics are selected |
| ResponseFormatting.LowestMetricsAreLowest | core/mcp/response_formatter.py:226-229 | The selection is the head of a stable ascending sort: no unselected metric scores lower |
| ResponseFormatting.Recommendations | core/mcp/response_formatter.py:231-235 | One "Improve NAME (SCORE/5): ADVICE" line per selected metric |
| ResponseFormatting.GenerateRecommendations | core/mcp/response_formatter.py:214-237 | The loop produces those recommendations, at most 3 |
| ResponseFormatting.RecommendationLines | core/mcp/response_formatter.py:231-235 | One recommendation line per selected metric, in order |
| ResponseFormatting.CategoryEntries | core/mcp/response_formatter.py:58-63 | One {category, score} entry per category, in map order |
| ResponseFormatting.FormattedMetrics | core/mcp/response_formatter.py:50-94 | Each result is formatted, and compacted in the compact format |
| ResponseFormatting.FormattedEvaluationOf | core/mcp/response_formatter.py:46-101 | The timestamp and hash are present iff include_metadata; metadata also needs non-empty metadata; summary and recommendations iff detailed |
| ResponseFormatting.CompactFormatBounds | core/mcp/response_formatter.py:84-94 | In the compact format every metric meets the 100/50 and one-example bounds |
| ResponseFormatting.FormatMetricList | core/mcp/response_formatter.py:51-55 | The loop formats every result in order |
| ResponseFormatting.FormatCategoryList | core/mcp/response_formatter.py:58-63 | The loop builds the category entries |
| ResponseFormatting.CompactInPlace | core/mcp/response_formatter.py:86-94 | The in-place rewrite compacts every metric |
| ResponseFormatting.FormatEvaluationResult | core/mcp/response_formatter.py:33-101 | The method gives the formatting specification, with default options when none are given |
| ResponseFormatting.FormatErrorGet | core/mcp/response_formatter.py:144-161 | The error dictionary maps "error" to the message, with any details merged over it |
| CoordinatorAdapting.TotalMetrics | core/mcp/coordinator_adapter.py:78-82 | The total counts the metrics passing a non-empty filter, or all of them |
| CoordinatorAdapting.ProgressCalls | core/mcp/coordinator_adapter.py:88-96 | The callback receives counts 1, 2, … up to the number finished |
| CoordinatorAdapting.FinishedCountIsSuccesses | core/mcp/coordinator_adapter.py:88-92 | The finished count is the number of evaluations that returned |
| CoordinatorAdapting.AllFinishedCount | core/mcp/coordinator_adapter.py:88-92 | When every evaluation returns, the count reaches the number dispatched |
| CoordinatorAdapting.CountWithinTotal | core/mcp/coordinator_adapter.py:78-98 | The count never exceeds the number dispatched, which equals the adapter's total |
| CoordinatorAdapting.CoordinatorAdapter.constructor | core/mcp/coordinator_adapter.py:24-28 | No callbacks at first |
| CoordinatorAdapting.CoordinatorAdapter.RegisterProgressCallback | core/mcp/coordinator_adapter.py:30-41 | The callback is stored under the request id, replacing any earlier one |
| CoordinatorAdapting.CoordinatorAdapter.UnregisterProgressCallback | core/mcp/coordinator_adapter.py:43-50 | The entry is removed, and an unknown id is a no-op |
| CoordinatorAdapting.CoordinatorAdapter.CountCompletions | core/mcp/coordinator_adapter.py:83-98 | The counter loop counts finished evaluations and calls the registered callback after each |
| CoordinatorAdapting.AdapterContentResult | core/mcp/coordinator_adapter.py:102-118 | Gathering by the corrected rule (Gather): every failure reads "Error evaluating content: …"; a success carries the successful evaluations of the selected metrics, in order, with the content's hash and the given timestamp |
| CoordinatorAdapting.GatheredNonEmpty | agents/coordinator_agent.py:93-101 | A gathering that succeeds after dispatching at least one metric has at least one result |
| CoordinatorAdapting.SuccessesAllFailed | agents/coordinator_agent.py:93-101 | When every evaluation fails there are no successful results |
| CoordinatorAdapting.AllFailedMarkedCompleted | core/mcp/request_handler.py:253-272 | With the adapter as the handler's coordinator, a request whose every evaluation fails gets "Error evaluating content: All metric evaluations failed: …" for the first failure, is marked "completed", and is not cached |
| CoordinatorAdapting.SuccessfulEvaluationHasResults | core/mcp/coordinator_adapter.py:166-169 | A successful content evaluation has a metric result, so the "no results were returned" branch is never taken |
| CoordinatorAdapting.CoordinatorAdapter.EvaluateContent | core/mcp/coordinator_adapter.py:52-118 | The wrapped coordinator call, gathering by the corrected rule (Gather), returns the adapter's content result; a callback registered under a non-empty request id receives the progress calls of the dispatched evaluations; otherwise, and whenever the pre-check fails, no call is made |
| CoordinatorAdapting.CoordinatorAdapter.EvaluateMetric | core/mcp/coordinator_adapter.py:120-169 | An unknown metric gives "Invalid metric: NAME" with the available metrics and evaluates nothing; otherwise the content evaluation's error is passed on, an empty result list gives "Evaluation completed but no results were returned", and a success returns the first successful result of the metrics with that name; the progress calls are those of the content evaluation of that one name |
| Reports.DigitsRoundTrip | core/storage/reports.py:159 | Zero-padded decimal digits read back as the number |
| Reports.FileStamp | core/storage/reports.py:159 | The file timestamp is 15 characters |
| Reports.DisplayStamp | core/storage/reports.py:59 | The displayed timestamp is 19 characters |
| Reports.FileStampRoundTrip | core/storage/reports.py:159 | The file timestamp has a digit at every position except the underscore at 8, and reads back as the date and time |
| Reports.FileStampSameSecond | core/storage/reports.py:159 | Two times share a file timestamp iff they agree down to the second; the microseconds are dropped |
| Reports.StampCollision | core/storage/reports.py:159 | Two distinct times half a second apart share a file timestamp |
| Reports.SameSecondSameFilename | core/storage/reports.py:148-165 | Two results for the same content hash made within one second get the same generated file name, so the second save overwrites the first |
| Reports.ReportPrefix | core/storage/reports.py:237 | The prefix is "report_", the timestamp, "_" and the hash's first 8 characters |
| Reports.GenerateFilename | core/storage/reports.py:148-165 | The filename is the prefix, ".", then the extension; with a hash of at least 8 characters it has 32 + the extension's length characters, with the hash prefix at positions 23 to 30 |
| Reports.ParseFormat | core/storage/reports.py:187-195 | A format is accepted iff its ASCII lowercase is json, md or markdown; it is JSON iff that lowercase is "json"; otherwise an "Invalid format type" error |
| Reports.SaveReport | core/storage/reports.py:167-213 | A valid format yields the custom filename when non-empty, else the generated one, with JSON or Markdown content |
| Reports.FixedFormats | core/storage/reports.py:244-249 | The two fixed formats are valid |
| Reports.SaveAllFormatsDefaultNames | core/storage/reports.py:236-250 | Without a prefix both files share the default report_TIMESTAMP_HASH8 prefix |
| Reports.SaveAllFormatsCustomNames | core/storage/reports.py:236-250 | With a prefix both files use it |
| Reports.CategoryLines | core/storage/reports.py:74-75 | One line per category score entry |
| Reports.ExampleLines | core/storage/reports.py:98-110 | An example list gives lines iff it is non-empty: a title, one line per example, then a blank |
| Reports.MetadataLines | core/storage/reports.py:112-116 | The metadata section appears iff the metadata is non-empty, with one line per entry |
| Reports.MarkdownSections | core/storage/reports.py:79-91 | The sections follow the first-appearance order of the categories, once each, and each holds exactly its category's results |
| Reports.AppendCategoryLines | core/storage/reports.py:74-75 | The loop appends the category lines |
| Reports.GroupMetrics | core/storage/reports.py:79-85 | The loop builds the group-by-category |
| Reports.AppendExamples | core/storage/reports.py:98-110 | The loop appends one example block |
| Reports.AppendMetric | core/storage/reports.py:91-110 | The loop appends one metric's lines |
| Reports.AppendSection | core/storage/reports.py:88-110 | The loop appends one category section |
| Reports.AppendSections | core/storage/reports.py:87-110 | The loop appends every section |
| Reports.AppendMetadata | core/storage/reports.py:112-116 | The loop appends the metadata section |
| Reports.ToMarkdown | core/storage/reports.py:48-118 | `to_markdown` joins the header, category, metric and metadata lines with newlines |
| Settings.OrElse | config/settings.py:52-56 | `a or b` on optional text: a when set and non-empty, else b |
| Settings.EnvText | config/settings.py:24-43 | A set environment variable overrides the field default |
| Settings.EnvOptional | config/settings.py:27-32 | An optional field is the variable's value iff the variable is present |
| Settings.EnvTemperature | config/settings.py:29 | The temperature defaults to 0.3, and an unparsable value is a validation error |
| Settings.LoadConfigFromToml | config/settings.py:74-85 | A missing file gives {}; one that parses gives its document; a TOML decode error or an I/O error gives "Failed to load configuration from PATH: …"; a file that is not UTF-8 raises its `UnicodeDecodeError` unwrapped, since that is neither exception caught |
| Settings.TestApiKey | config/settings.py:152-159 | The test key iff the openai table holds api_key_test |
| Settings.Override | config/settings.py:117-147 | A file value is applied only when the variable is unset or empty |
| Settings.PrecedenceOfTextSettings | config/settings.py:116-147 | Every text setting is the environment's value if set, else the file's, else the default |
| Settings.OptionalPrecedence | config/settings.py:123-141 | The same precedence for the two API keys and the temperature |
| Settings.EmptyFileKeepsEnvironment | config/settings.py:117-147 | An empty TOML document changes nothing |
| Settings.AppConfigOf | config/settings.py:45-71 | Succeeds iff the provider is known and the temperature lies in [0, 2]; for openai the key is llm_api_key or openai_api_key with no base URL; for ollama and lmstudio the base URL is llm_base_url or the provider default, with no key |
| Settings.ConfigurationManager.constructor | config/settings.py:13-43 | The fields are read from the environment over the defaults |
| Settings.ConfigurationManager.ApplyLlmModel | config/settings.py:117-122 | The provider and model name are overridden by the file when their variables are unset |
| Settings.ConfigurationManager.ApplyLlmConnection | config/settings.py:123-128 | The same for the API key, base URL and temperature |
| Settings.ConfigurationManager.ApplyAppTable | config/settings.py:130-137 | The same for the app table |
| Settings.ConfigurationManager.ApplyProviderTables | config/settings.py:139-147 | The same for the provider tables |
| Settings.ConfigurationManager.ApplyToml | config/settings.py:116-147 | The assignments give the overlay of the file on the environment |
| Settings.LoadAppConfig | config/settings.py:108-149 | A file error or a bad temperature is raised; otherwise the app configuration of the overlay |
| Settings.Messages | config/settings.py:162-183 | One message per problem, in order |
| Settings.ConfigProblemsExactly | config/settings.py:162-183 | No errors iff none of the four checks fires; each problem is reported iff its check fires; at most 3, since the two provider checks exclude each other |
| Settings.OllamaTitle | config/settings.py:171 | `"ollama".title()` is "Ollama" |
| Settings.LmstudioTitle | config/settings.py:171 | `"lmstudio".title()` is "Lmstudio" |
| Settings.ProblemMessages | config/settings.py:166-181 | The messages are those of the checks that fire, in the order of the checks |
| Settings.ValidateConfig | config/settings.py:162-183 | The appends produce exactly the messages of the problems found |
| Text.StripEmptyIffBlank | main.py:62 | `content.strip()` is empty iff the content is whitespace only |
| Text.Title | config/settings.py:171 | On ASCII text, `str.title` keeps the length and upper-cases the first character |
| Text.Capitalize | core/storage/reports.py:75 | On ASCII text, `str.capitalize` upper-cases the first character and lower-cases the rest |
| WebPage.ValidateContent | main.py:52-68 | Valid iff not blank and at most 20000 characters; blank gives "Content cannot be empty" first, then the length message |
| WebPage.LengthLimitIsInclusive | main.py:62-66 | 20000 characters pass and 20001 do not |
| WebPage.LastIndex | main.py:90 | The last position of a character, or −1 |
| WebPage.ExtensionShape | main.py:90 | The extension is a suffix of the name that starts with its only dot and lies in the last path component |
| WebPage.ExtensionExamples | main.py:90 | "notes.md" has ".md"; "dir.v2/readme" and ".txt" have none |
| WebPage.ReadFileContent | main.py:71-101 | Success iff a file is given, within 1 MiB, with a .md or .txt extension in any case, and decodable; no file, then size, then extension, then decoding decide the error |
| WebPage.AcceptedNameEnding | main.py:89-92 | An accepted name ends in its extension, which lowercases to ".md" or ".txt" |
| WebPage.CloseRadarSeries | main.py:196-202 | Both lists gain their first element, or nothing for an empty score dictionary |
| WebPage.RadarSeriesClosed | main.py:196-202 | The polygon has n + 1 points, ends where it starts, and visits every category |
| Samples.LoadedSamples | core/storage/samples.py:10-24 | A failed load leaves the sample list empty |
| Samples.FindById | core/storage/samples.py:29-33 | The first sample with the id, or nothing iff none has it |
| Samples.SampleStorage.constructor | core/storage/samples.py:8-11 | The store holds the loaded samples |
| Samples.SampleStorage.GetAllSamples | core/storage/samples.py:26-27 | The stored list, unchanged |
| Samples.SampleStorage.GetSampleById | core/storage/samples.py:29-33 | The loop returns the first match |

## Left out

- Concurrency: the semaphore, `asyncio.gather`, `wait_for` timeouts and sleeps. Dispatch is a sequential list of per-metric outcomes, a timeout is an outcome kind, and retry sleeps are recorded delays.
- The provider network clients (OpenAI, Ollama, LM Studio). The language model is a function from the request and attempt number to a response or an error kind.
- Foreign libraries, each an uninterpreted function parameter: `json.loads`, `json.dumps`, the parsing regexes, Jinja rendering, `hashlib.md5`, the Draft 7 schema checker, float formatting (`.1f`/`.2f`/`str(float)`), `datetime.isoformat`, UTF-8 decoding, TOML parsing and float parsing.
- Clocks: the current time (to the microsecond, as `datetime.now()` gives it) and the elapsed time are parameters.
- File and directory I/O: YAML guideline and sample loading (the sample store takes the load's outcome), report writing, listing and loading, `os.makedirs`, and path checks (predicates).
- `create_default_config_toml`, because it only writes a fixed file.
- The `.env` file and case-insensitive variable names of pydantic-settings. The environment is a map with exact names.
- Settings.LoadAppConfig: requires the TOML document to be well typed (text where the field is text, a number at llm.temperature). The source assigns ill-typed file values without checking them.
- `get_tool_schemas`, the tool handler callable, the `MCPToolParameter` model and the adapter's runtime method swap. Counting is an explicit per-completion step.
- The outer `except` branches that cannot be reached once the inner steps are modelled as total.
- Coordinator.PreDispatch: the quoting inside the "None of the specified metrics" message follows Python list syntax only for plain names.
- The order of `available_metrics` in the invalid-metrics reply of `handle_evaluate_content`, which comes from a Python set. The model states only which names appear.
- The summary text of `_generate_summary` beyond the choice of the strongest and weakest entries, since its numbers are float-formatted.
- The Streamlit and Plotly rendering of main.py and the other front ends.
- Coordinator.CoordinatorAgent.EvaluateContent, CoordinatorAdapting.CoordinatorAdapter.EvaluateContent, CoordinatorAdapting.AdapterContentResult, CoordinatorAdapting.CoordinatorAdapter.EvaluateMetric: all gather by the corrected rule (Gather). With three metrics of which only the second raises, the code as written raises "All metric evaluations failed: …", and the adapter then returns "Error evaluating content: All metric evaluations failed: …"; the model returns the two successful results (see Findings; Coordinator.GatherAsWritten models the code as written).
- Floating point: weights, weight sums, category scores and the overall score are exact reals, where Python computes with doubles and rounds at every step. The default guidelines and the worked examples of the tests stay within [1, 5] either way, but the lines below name inputs on which rounding changes what a member states.
- GuidelinesStore.WeightSumPermutation: exact sums do not depend on order. Python before 3.12 sums naively, so (0.02, 0.04, 0.93) sums to 0.99 and (0.02, 0.93, 0.04) to 0.9900000000000001.
- GuidelinesStore.ValidateMetricWeightsPermutation: the verdict does not depend on order in the model. On Python before 3.12, `abs(total - 1.0) < 0.01` rejects (0.02, 0.04, 0.93) and accepts (0.02, 0.93, 0.04).
- GuidelinesStore.ValidateStructure: a category with metric weights (0.01, 0.05, 0.93) fails, because the exact sum 0.99 is 0.01 from 1. Python's sum is 0.9900000000000001, so the category passes there.
- Coordinator.WeightedSumBounds: the weighted sum is at most 5 times the total weight over reals. In doubles, scores 5 and 5 with weights 0.19 and 0.81 sum to 5.000000000000001 over a total weight of 1.0.
- Coordinator.MeanBounds: the weighted mean lies between the least and the greatest score over reals. In doubles, the 0.19/0.81 category scored 5 and 5 has the mean 5.000000000000001.
- Coordinator.ScoresOfRange: every category score is in [1, 5] over reals. The 0.19/0.81 category scored 5 and 5 gets 5.000000000000001 in Python.
- Coordinator.OverallSumBounds: the overall weighted sum is at most 5 times the total category weight over reals. In doubles the same 0.19/0.81 input exceeds it.
- Coordinator.OverallRange: the overall score is in [1, 5] over reals. A single category of weights 0.19/0.81 scored 5 and 5 gives 5.000000000000001 in Python, and so does a single selected metric of weight 0.237 scored 5.
- Coordinator.OverallRejectedIffWeightless: over reals the result is refused only when no category has weight. In Python, `EvaluationResult` also refuses the overall score 5.000000000000001 of the inputs above.
- Coordinator.WorkedExample: the overall score is exactly 4.44. Python computes 4.4399999999999995.
- Coordinator.WorkedOverall: combining 3.6 and 5.0 with weights 1.0 and 1.5 gives exactly 4.44. Python computes 4.4399999999999995.
- Coordinator.CoordinatorAgent.EvaluateContent: on the 0.19/0.81 category scored 5 and 5, Python's `EvaluationResult` raises on the overall score 5.000000000000001, where the model returns the result.
- CoordinatorAdapting.AdapterContentResult: on the same input, Python's adapter returns "Error evaluating content: …" with the validation message, where the model returns the result.
- CoordinatorAdapting.CoordinatorAdapter.EvaluateContent: the same as AdapterContentResult, which it equals.
- CoordinatorAdapting.CoordinatorAdapter.EvaluateMetric: a single metric of weight 0.237 scored 5 gives the overall score 5.000000000000001 in Python, so the adapter returns the content error where the model returns the result.
- Text.Lower: maps ASCII letters only. Python's `str.lower` also maps other letters, so `"mar\u212Adown".lower()` (with the Kelvin sign) is "markdown".
- Text.Capitalize: ASCII letters only; Python capitalizes "éloquence" to "Éloquence" and "ß" to "Ss", which changes the length. This affects the category lines of the Markdown report.
- Text.Title: ASCII letters only; Python's "ß".title() is "Ss". The provider names it titles in the settings checks are always ASCII, so those messages are exact.
- Reports.ParseFormat: lowercases ASCII letters only, so it rejects format names such as "mar\u212Adown" that Python's `.lower()` turns into "markdown".
- MetricEvaluator.BuildResult: after "Failed to parse evaluation response: " the model names the kind of failure (a non-integer score, a wrongly typed field, a confidence out of range), where the source appends `str(e)` of the exception raised by `int()` or the model validation.
- MetricEvaluator.ParseIntText: accepts ASCII decimal digits only. Python's `int()` also accepts underscores between digits ("1_0") and non-ASCII decimal digits.
- ResponseFormatting.TruncateText: modelled as written for every limit, including the limits below 3 for which the result is longer than the limit. Every caller passes 100 or 50.

## Findings

| source | as written | input that shows it | evidently intended | confidence | as-written member | corrected member |
|---|---|---|---|---|---|---|
| agents/coordinator_agent.py:97-101 | The recovery checks `task in tasks` for tasks from `asyncio.all_tasks()`, but `tasks` holds coroutine objects, so no task ever matches and any failure raises "All metric evaluations failed" | Three metrics where the second evaluation raises and the other two return | The successful results are kept when at least one evaluation succeeded, as the coordinator's tests expect | not executed | Coordinator.GatherAsWritten, Coordinator.PartialFailureAsWritten | Coordinator.Gather, Coordinator.PartialFailureKeepsSuccesses |
