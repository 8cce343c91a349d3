/** The pydantic data model of core/config/models.py. Each bounded field
    becomes a subset type; each model's validating constructor becomes a
    function that returns `Err` naming the field the validation rejects. */
module Models {
  import opened Wrappers

  type Weight = r: real | 0.0 <= r <= 1.0
  type Score = i: int | 1 <= i <= 5 witness 1
  type Confidence = r: real | 0.0 <= r <= 1.0
  type Temperature = r: real | 0.0 <= r <= 2.0
  type OverallScore = r: real | 1.0 <= r <= 5.0 witness 1.0

  datatype Provider = OpenAI | Ollama | LMStudio

  function ProviderName(p: Provider): string {
    match p
    case OpenAI => "openai"
    case Ollama => "ollama"
    case LMStudio => "lmstudio"
  }

  /** The `Literal["openai", "ollama", "lmstudio"]` check. */
  function ParseProvider(s: string): (r: Option<Provider>)
    ensures r.Some? <==> s == "openai" || s == "ollama" || s == "lmstudio"
    ensures r.Some? ==> ProviderName(r.value) == s
  {
    if s == "openai" then Some(OpenAI)
    else if s == "ollama" then Some(Ollama)
    else if s == "lmstudio" then Some(LMStudio)
    else None
  }

  lemma ProviderNameRoundTrip(p: Provider)
    ensures ParseProvider(ProviderName(p)) == Some(p)
  {
  }

  const DefaultTemperature: Temperature := 0.3

  datatype LLMConfig = LLMConfig(
    provider: Provider,
    modelName: string,
    apiKey: Option<string>,
    baseUrl: Option<string>,
    temperature: Temperature)

  /** `LLMConfig(...)`: the provider must be one of the three literals and the
      temperature must lie in [0, 2]. */
  function NewLLMConfig(provider: string, modelName: string, apiKey: Option<string>,
                        baseUrl: Option<string>, temperature: real): (r: Result<LLMConfig, string>)
    ensures r.Ok? <==> ParseProvider(provider).Some? && 0.0 <= temperature <= 2.0
    ensures r.Ok? ==> (ProviderName(r.value.provider) == provider && r.value.modelName == modelName
                       && r.value.apiKey == apiKey && r.value.baseUrl == baseUrl
                       && r.value.temperature == temperature)
  {
    match ParseProvider(provider)
    case None => Err("validation error: provider")
    case Some(p) =>
      if 0.0 <= temperature <= 2.0 then Ok(LLMConfig(p, modelName, apiKey, baseUrl, temperature))
      else Err("validation error: temperature")
  }

  datatype Sample = Sample(id: string, title: string, description: string, content: string)

  datatype Metric = Metric(name: string, description: string, weight: Weight, category: string)

  /** `Metric(...)`: the weight must lie in [0, 1]. */
  function NewMetric(name: string, description: string, weight: real, category: string): (r: Result<Metric, string>)
    ensures r.Ok? <==> 0.0 <= weight <= 1.0
    ensures r.Ok? ==> r.value == Metric(name, description, weight, category)
  {
    if 0.0 <= weight <= 1.0 then Ok(Metric(name, description, weight, category))
    else Err("validation error: weight")
  }

  const DefaultConfidence: Confidence := 1.0

  datatype MetricResult = MetricResult(
    metric: Metric,
    score: Score,
    reasoning: string,
    improvementAdvice: string,
    positiveExamples: seq<string>,
    improvementExamples: seq<string>,
    confidence: Confidence)

  /** `MetricResult(...)`: the score must be an integer in [1, 5] and the
      confidence must lie in [0, 1]. */
  function NewMetricResult(metric: Metric, score: int, reasoning: string, advice: string,
                           positive: seq<string>, improvement: seq<string>, confidence: real)
    : (r: Result<MetricResult, string>)
    ensures r.Ok? <==> 1 <= score <= 5 && 0.0 <= confidence <= 1.0
    ensures r.Ok? ==> (r.value.metric == metric && r.value.score == score
                       && r.value.reasoning == reasoning && r.value.improvementAdvice == advice
                       && r.value.positiveExamples == positive && r.value.improvementExamples == improvement
                       && r.value.confidence == confidence)
  {
    if !(1 <= score <= 5) then Err("validation error: score")
    else if !(0.0 <= confidence <= 1.0) then Err("validation error: confidence")
    else Ok(MetricResult(metric, score, reasoning, advice, positive, improvement, confidence))
  }

  /** A `MetricResult` built with the defaults of the optional fields. */
  function DefaultMetricResult(metric: Metric, score: Score, reasoning: string, advice: string): (r: MetricResult)
    ensures r.positiveExamples == [] && r.improvementExamples == [] && r.confidence == 1.0
    ensures r.metric == metric && r.score == score
  {
    MetricResult(metric, score, reasoning, advice, [], [], DefaultConfidence)
  }

  type Month = i: int | 1 <= i <= 12 witness 1
  type Day = i: int | 1 <= i <= 31 witness 1
  type Hour = i: int | 0 <= i <= 23
  type Minute = i: int | 0 <= i <= 59
  type Year = i: int | 1000 <= i <= 9999 witness 1000
  type Microsecond = i: int | 0 <= i <= 999999

  /** A `datetime`, to the microsecond as `datetime.now()` gives it. */
  datatype DateTime = DateTime(year: Year, month: Month, day: Day, hour: Hour, minute: Minute, second: Minute,
                               microsecond: Microsecond)

  /** The values stored in `metadata` dictionaries. */
  datatype MetaValue = MetaInt(i: int) | MetaReal(r: real) | MetaText(s: string)

  datatype EvaluationResult = EvaluationResult(
    contentHash: string,
    timestamp: DateTime,
    overallScore: OverallScore,
    categoryScores: seq<(string, real)>,
    metricResults: seq<MetricResult>,
    metadata: seq<(string, MetaValue)>)

  /** `EvaluationResult(...)`: the overall score must lie in [1, 5]. */
  function NewEvaluationResult(contentHash: string, timestamp: DateTime, overall: real,
                               categoryScores: seq<(string, real)>, metricResults: seq<MetricResult>,
                               metadata: seq<(string, MetaValue)>): (r: Result<EvaluationResult, string>)
    ensures r.Ok? <==> 1.0 <= overall <= 5.0
    ensures r.Ok? ==> (r.value.overallScore == overall && r.value.contentHash == contentHash
                       && r.value.timestamp == timestamp && r.value.categoryScores == categoryScores
                       && r.value.metricResults == metricResults && r.value.metadata == metadata)
  {
    if 1.0 <= overall <= 5.0 then
      Ok(EvaluationResult(contentHash, timestamp, overall, categoryScores, metricResults, metadata))
    else Err("validation error: overall_score")
  }

  datatype AppConfig = AppConfig(llm: LLMConfig, guidelinesPath: string, reportsDir: string, uiTheme: string)

  /** An `AppConfig` with every optional field at its default. */
  function DefaultAppConfig(llm: LLMConfig): (c: AppConfig)
    ensures c.llm == llm && c.guidelinesPath == "guidelines.yaml"
    ensures c.reportsDir == "reports" && c.uiTheme == "light"
  {
    AppConfig(llm, "guidelines.yaml", "reports", "light")
  }
}
