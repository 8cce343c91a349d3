/** The MCP request handler: an order-insensitive request key, a result
    cache that evicts its oldest entry, progress tracking per request, and
    the validation and caching around the coordinator's evaluation. */
module RequestHandling {
  import opened Wrappers
  import opened Text
  import opened Assoc
  import opened Sorting
  import opened Models
  import opened GuidelinesStore

  // ---------------------------------------------------------------------
  // Request keys

  /** The string hashed into a request id: the content, then the sorted
      metric names joined by commas, or "all" without metrics. */
  function RequestKey(content: string, metrics: Option<seq<string>>): (k: string)
    ensures (metrics.None? || metrics.value == []) ==> k == content + ":all"
    ensures (metrics.Some? && metrics.value != []) ==> k == content + ":" + Join(",", SortStrings(metrics.value))
  {
    var metricsText := if metrics.Some? && metrics.value != [] then Join(",", SortStrings(metrics.value)) else "all";
    content + ":" + metricsText
  }

  /** `_generate_request_id`, with the MD5 digest as a parameter. */
  function RequestId(md5: string -> string, content: string, metrics: Option<seq<string>>): string {
    md5(RequestKey(content, metrics))
  }

  /** The order of the requested metrics does not matter. */
  lemma RequestIdOrderInsensitive(md5: string -> string, content: string, a: seq<string>, b: seq<string>)
    requires multiset(a) == multiset(b)
    ensures RequestId(md5, content, Some(a)) == RequestId(md5, content, Some(b))
  {
    SortStringsOrderInsensitive(a, b);
    if a == [] {
      assert |b| == |multiset(b)| == 0;
    }
  }

  /** No metrics and an empty metric list ask for the same evaluation. */
  lemma RequestIdAll(md5: string -> string, content: string)
    ensures RequestId(md5, content, None) == RequestId(md5, content, Some([])) == md5(content + ":all")
  {
  }

  // ---------------------------------------------------------------------
  // The result cache

  /** A single-metric response dictionary. */
  datatype MetricSummary = MetricSummary(
    metric: string,
    category: string,
    score: Score,
    reasoning: string,
    improvementAdvice: string,
    positiveExamples: seq<string>,
    improvementExamples: seq<string>)

  /** A cached value: a dumped evaluation result, or a single-metric response. */
  datatype Cached = DumpedEvaluation(result: EvaluationResult) | DumpedMetric(summary: MetricSummary)

  /** `_add_to_cache` on a cache in insertion order: when the cache holds
      `cacheSize` entries or more, the oldest is dropped first; dropping from
      an empty cache raises, which `None` stands for. */
  function CacheAfterAdd(cache: seq<(string, Cached)>, cacheSize: int, id: string, v: Cached)
    : (r: Option<seq<(string, Cached)>>)
    ensures r.None? <==> |cache| >= cacheSize && cache == []
  {
    if |cache| >= cacheSize then
      if cache == [] then None else Some(Put(cache[1..], id, v))
    else Some(Put(cache, id, v))
  }

  lemma UniqueKeysTail(cache: seq<(string, Cached)>)
    requires UniqueKeys(cache) && cache != []
    ensures UniqueKeys(cache[1..])
  {
    var t := cache[1..];
    forall i, j | 0 <= i < j < |t| ensures t[i].0 != t[j].0 {
      assert t[i] == cache[i + 1] && t[j] == cache[j + 1];
    }
  }

  /** With a positive size the cache never outgrows it, keeps its keys
      distinct and returns the value just added. */
  lemma CacheAfterAddBounded(cache: seq<(string, Cached)>, cacheSize: int, id: string, v: Cached)
    requires cacheSize >= 1 && |cache| <= cacheSize && UniqueKeys(cache)
    ensures CacheAfterAdd(cache, cacheSize, id, v).Some?
    ensures |CacheAfterAdd(cache, cacheSize, id, v).value| <= cacheSize
    ensures UniqueKeys(CacheAfterAdd(cache, cacheSize, id, v).value)
    ensures Get(CacheAfterAdd(cache, cacheSize, id, v).value, id) == Some(v)
  {
    if |cache| >= cacheSize {
      UniqueKeysTail(cache);
      PutUnique(cache[1..], id, v);
    } else {
      PutUnique(cache, id, v);
    }
  }

  /** A full cache loses exactly its oldest entry: every other key keeps its value. */
  lemma CacheEvictsOldest(cache: seq<(string, Cached)>, cacheSize: int, id: string, v: Cached, k: string)
    requires UniqueKeys(cache) && cache != [] && |cache| >= cacheSize
    requires k != id && k != cache[0].0
    ensures Get(CacheAfterAdd(cache, cacheSize, id, v).value, k) == Get(cache, k)
  {
    GetPut(cache[1..], id, v, k);
    if HasKey(cache, k) {
      var i := IndexOf(cache, k);
      assert i > 0;
      IndexOfAt(cache[1..], k, i - 1);
    } else {
      assert !HasKey(cache[1..], k) by {
        forall j | 0 <= j < |cache[1..]| ensures cache[1..][j].0 != k {
          assert cache[1..][j] == cache[j + 1];
          assert Keys(cache)[j + 1] == cache[j + 1].0;
        }
      }
    }
  }

  // ---------------------------------------------------------------------
  // Progress

  datatype Progress = Progress(startTime: real, totalMetrics: int, completedMetrics: int,
                               status: string, endTime: Option<real>)

  /** The progress percentage; 0 for a request without metrics. */
  function ProgressPercent(completed: int, total: int): (p: real)
    ensures total <= 0 ==> p == 0.0
    ensures 0 <= completed <= total ==> 0.0 <= p <= 100.0
  {
    if total > 0 then (completed as real / total as real) * 100.0 else 0.0
  }

  lemma ProgressExample()
    ensures ProgressPercent(3, 5) == 60.0
  {
  }

  datatype StatusReply =
    | UnknownRequest(error: string)
    | Status(requestId: string, status: string, progress: real, elapsedTime: real,
             totalMetrics: int, completedMetrics: int)

  /** `get_request_status` at clock reading `now`. */
  function StatusOf(active: map<string, Progress>, id: string, now: real): (r: StatusReply)
    ensures r.UnknownRequest? <==> id !in active
    ensures id !in active ==> r.error == "Request " + id + " not found"
    ensures id in active ==> (r.requestId == id && r.status == active[id].status
      && r.totalMetrics == active[id].totalMetrics && r.completedMetrics == active[id].completedMetrics
      && r.progress == ProgressPercent(active[id].completedMetrics, active[id].totalMetrics))
  {
    if id !in active then UnknownRequest("Request " + id + " not found")
    else
      var p := active[id];
      Status(id, p.status, ProgressPercent(p.completedMetrics, p.totalMetrics), now - p.startTime,
             p.totalMetrics, p.completedMetrics)
  }

  // ---------------------------------------------------------------------
  // Validation

  function Names(ms: seq<Metric>): (r: seq<string>)
    ensures |r| == |ms| && forall k :: 0 <= k < |ms| ==> r[k] == ms[k].name
  {
    seq(|ms|, k requires 0 <= k < |ms| => ms[k].name)
  }

  /** The requested names the guidelines do not define, in request order. */
  function InvalidNames(requested: seq<string>, available: set<string>): (r: seq<string>)
    ensures forall n :: n in r <==> n in requested && n !in available
  {
    if requested == [] then []
    else
      var rest := InvalidNames(requested[..|requested| - 1], available);
      var n := requested[|requested| - 1];
      assert requested == requested[..|requested| - 1] + [n];
      if n in available then rest else rest + [n]
  }

  /** The first metric of a name, as `next(...)` over the flattened list finds it. */
  function FindMetric(ms: seq<Metric>, name: string): (r: Option<Metric>)
    ensures r.None? <==> forall k :: 0 <= k < |ms| ==> ms[k].name != name
    ensures r.Some? ==> exists k :: 0 <= k < |ms| && ms[k] == r.value && r.value.name == name
                                    && forall j :: 0 <= j < k ==> ms[j].name != name
  {
    if ms == [] then None
    else if ms[0].name == name then Some(ms[0])
    else
      var rest := FindMetric(ms[1..], name);
      assert forall k :: 1 <= k < |ms| ==> ms[k] == ms[1..][k - 1];
      rest
  }

  function SummaryOf(r: MetricResult): (s: MetricSummary)
    ensures s.metric == r.metric.name && s.category == r.metric.category && s.score == r.score
  {
    MetricSummary(r.metric.name, r.metric.category, r.score, r.reasoning, r.improvementAdvice,
                  r.positiveExamples, r.improvementExamples)
  }

  // ---------------------------------------------------------------------
  // The handler

  /** How the coordinator's evaluation ended under the request timeout: a
      result, a timeout, an exception, or (from the coordinator adapter,
      which never raises) a returned `{"error": …}` dictionary. */
  datatype CoordinatorOutcome =
    | Finished(result: EvaluationResult)
    | TimedOut
    | Raised(message: string)
    | ReturnedError(error: string)

  datatype Reply =
    | ErrorReply(error: string)
    | InvalidMetrics(error: string, availableSet: set<string>)
    | InvalidMetric(error: string, availableList: seq<string>)
    | CachedReply(value: Cached)
    | EvaluationReply(result: EvaluationResult)
    | MetricReply(summary: MetricSummary)

  const DefaultCacheSize: int := 100
  const DefaultRequestTimeout: real := 300.0
  const NoResults: string := "Evaluation completed but no results were returned"
  /** What reading `result.metric_results` of a returned dictionary raises. */
  const DictHasNoMetricResults: string := "'dict' object has no attribute 'metric_results'"

  function TimeoutMessage(seconds: string): string {
    "Request timed out after " + seconds + " seconds"
  }

  /** The metric names the guidelines define. */
  function AvailableNames(g: Guidelines): set<string> {
    set m | m in Expand(g.categories) :: m.name
  }

  predicate Requested(metrics: Option<seq<string>>) {
    metrics.Some? && metrics.value != []
  }

  /** The replies `handle_evaluate_content` gives before calling the
      coordinator: blank content, a cached key, unknown metric names. */
  function EarlyContentReply(cache: seq<(string, Cached)>, g: Guidelines, md5: string -> string,
                             content: string, metrics: Option<seq<string>>): (r: Option<Reply>)
    ensures IsBlank(content) ==> r == Some(ErrorReply("Content cannot be empty"))
    ensures !IsBlank(content) && Get(cache, RequestId(md5, content, metrics)).Some? ==>
      r == Some(CachedReply(Get(cache, RequestId(md5, content, metrics)).value))
    ensures r.None? <==> !IsBlank(content) && Get(cache, RequestId(md5, content, metrics)).None?
                         && (Requested(metrics) ==> InvalidNames(metrics.value, AvailableNames(g)) == [])
  {
    var id := RequestId(md5, content, metrics);
    if IsBlank(content) then Some(ErrorReply("Content cannot be empty"))
    else if Get(cache, id).Some? then Some(CachedReply(Get(cache, id).value))
    else if Requested(metrics) && InvalidNames(metrics.value, AvailableNames(g)) != [] then
      var invalid := InvalidNames(metrics.value, AvailableNames(g));
      Some(InvalidMetrics("Invalid metrics: " + Join(", ", invalid), AvailableNames(g)))
    else None
  }

  /** The replies `handle_evaluate_metric` gives before calling the coordinator. */
  function EarlyMetricReply(cache: seq<(string, Cached)>, g: Guidelines, md5: string -> string,
                            content: string, metricName: string): (r: Option<Reply>)
    ensures IsBlank(content) ==> r == Some(ErrorReply("Content cannot be empty"))
    ensures !IsBlank(content) && Get(cache, RequestId(md5, content, Some([metricName]))).None?
            && FindMetric(Expand(g.categories), metricName).None? ==>
      r == Some(InvalidMetric("Invalid metric: " + metricName, Names(Expand(g.categories))))
    ensures r.None? <==> !IsBlank(content) && Get(cache, RequestId(md5, content, Some([metricName]))).None?
                         && FindMetric(Expand(g.categories), metricName).Some?
  {
    var id := RequestId(md5, content, Some([metricName]));
    if IsBlank(content) then Some(ErrorReply("Content cannot be empty"))
    else if Get(cache, id).Some? then Some(CachedReply(Get(cache, id).value))
    else if FindMetric(Expand(g.categories), metricName).None? then
      Some(InvalidMetric("Invalid metric: " + metricName, Names(Expand(g.categories))))
    else None
  }

  /** What follows the coordinator call: the reply, the final status and the cache. */
  datatype Finish = Finish(reply: Reply, status: string, cache: seq<(string, Cached)>)

  function FinishContent(cache: seq<(string, Cached)>, cacheSize: int, id: string,
                         outcome: CoordinatorOutcome, timeoutText: string): Finish {
    match outcome
    case Finished(res) =>
      (match CacheAfterAdd(cache, cacheSize, id, DumpedEvaluation(res))
       case Some(c) => Finish(EvaluationReply(res), "completed", c)
       case None => Finish(ErrorReply("Error evaluating content: "), "error", cache))
    case TimedOut => Finish(ErrorReply(TimeoutMessage(timeoutText)), "timeout", cache)
    case Raised(msg) => Finish(ErrorReply("Error evaluating content: " + msg), "error", cache)
    case ReturnedError(e) => Finish(ErrorReply(e), "completed", cache)
  }

  function FinishMetric(cache: seq<(string, Cached)>, cacheSize: int, id: string,
                        outcome: CoordinatorOutcome, timeoutText: string): Finish {
    match outcome
    case Finished(res) =>
      if res.metricResults == [] then
        Finish(ErrorReply(NoResults), "error", cache)
      else
        var response := SummaryOf(res.metricResults[0]);
        (match CacheAfterAdd(cache, cacheSize, id, DumpedMetric(response))
         case Some(c) => Finish(MetricReply(response), "completed", c)
         case None => Finish(ErrorReply("Error evaluating metric: "), "error", cache))
    case TimedOut => Finish(ErrorReply(TimeoutMessage(timeoutText)), "timeout", cache)
    case Raised(msg) => Finish(ErrorReply("Error evaluating metric: " + msg), "error", cache)
    case ReturnedError(_) => Finish(ErrorReply("Error evaluating metric: " + DictHasNoMetricResults), "error", cache)
  }

  /** A finished evaluation is returned and cached, so that the next identical
      request is a cache hit. */
  lemma FinishedContentIsCached(cache: seq<(string, Cached)>, cacheSize: int, id: string,
                                res: EvaluationResult, timeoutText: string)
    requires cacheSize >= 1 && |cache| <= cacheSize && UniqueKeys(cache)
    ensures var f := FinishContent(cache, cacheSize, id, Finished(res), timeoutText);
      && f.reply == EvaluationReply(res) && f.status == "completed"
      && Get(f.cache, id) == Some(DumpedEvaluation(res)) && |f.cache| <= cacheSize
  {
    CacheAfterAddBounded(cache, cacheSize, id, DumpedEvaluation(res));
  }

  /** A timed-out or failed evaluation leaves the cache alone. A returned
      error dictionary is passed back as the reply, and the request is still
      marked "completed". */
  lemma FailedContentNotCached(cache: seq<(string, Cached)>, cacheSize: int, id: string,
                               outcome: CoordinatorOutcome, timeoutText: string)
    requires !outcome.Finished?
    ensures FinishContent(cache, cacheSize, id, outcome, timeoutText).cache == cache
    ensures FinishContent(cache, cacheSize, id, outcome, timeoutText).status ==
      match outcome
      case TimedOut => "timeout"
      case Raised(_) => "error"
      case ReturnedError(_) => "completed"
    ensures outcome.ReturnedError? ==>
      FinishContent(cache, cacheSize, id, outcome, timeoutText).reply == ErrorReply(outcome.error)
  {
  }

  /** A returned error dictionary breaks the single-metric handler: reading
      its `metric_results` raises, so the request ends as "error" with that
      exception's text, and nothing is cached. */
  lemma ReturnedErrorFailsMetric(cache: seq<(string, Cached)>, cacheSize: int, id: string,
                                 error: string, timeoutText: string)
    ensures var f := FinishMetric(cache, cacheSize, id, ReturnedError(error), timeoutText);
      && f.reply == ErrorReply("Error evaluating metric: " + DictHasNoMetricResults)
      && f.status == "error" && f.cache == cache
  {
  }

  /** The single-metric reply summarises the first result and is cached. */
  lemma FinishedMetricIsCached(cache: seq<(string, Cached)>, cacheSize: int, id: string,
                               res: EvaluationResult, timeoutText: string)
    requires cacheSize >= 1 && |cache| <= cacheSize && UniqueKeys(cache)
    requires res.metricResults != []
    ensures var f := FinishMetric(cache, cacheSize, id, Finished(res), timeoutText);
      && f.reply == MetricReply(SummaryOf(res.metricResults[0])) && f.status == "completed"
      && Get(f.cache, id) == Some(DumpedMetric(SummaryOf(res.metricResults[0])))
  {
    CacheAfterAddBounded(cache, cacheSize, id, DumpedMetric(SummaryOf(res.metricResults[0])));
  }

  class RequestHandler {
    const guidelines: Guidelines
    const cacheSize: int
    const requestTimeout: real
    var resultCache: seq<(string, Cached)>
    var activeRequests: map<string, Progress>

    predicate Valid()
      reads this
    {
      UniqueKeys(resultCache)
    }

    constructor (guidelines: Guidelines, cacheSize: int, requestTimeout: real)
      ensures Valid()
      ensures this.guidelines == guidelines && this.cacheSize == cacheSize
      ensures this.requestTimeout == requestTimeout
      ensures resultCache == [] && activeRequests == map[]
    {
      this.guidelines := guidelines;
      this.cacheSize := cacheSize;
      this.requestTimeout := requestTimeout;
      resultCache := [];
      activeRequests := map[];
    }

    /** `_check_cache`. */
    method CheckCache(id: string) returns (r: Option<Cached>)
      ensures r == Get(resultCache, id)
    {
      if HasKey(resultCache, id) {
        return Some(Get(resultCache, id).value);
      }
      return None;
    }

    /** `_add_to_cache`: false when the eviction raises on an empty cache
        (a size of 0 or less), in which case nothing changes. */
    method AddToCache(id: string, v: Cached) returns (ok: bool)
      requires Valid()
      modifies this
      ensures Valid()
      ensures ok <==> CacheAfterAdd(old(resultCache), cacheSize, id, v).Some?
      ensures resultCache == if ok then CacheAfterAdd(old(resultCache), cacheSize, id, v).value else old(resultCache)
      ensures activeRequests == old(activeRequests)
    {
      if |resultCache| >= cacheSize {
        if resultCache == [] {
          return false;
        }
        UniqueKeysTail(resultCache);
        resultCache := resultCache[1..];
      }
      PutUnique(resultCache, id, v);
      resultCache := Put(resultCache, id, v);
      return true;
    }

    /** `_track_request_progress`. */
    method TrackRequestProgress(id: string, totalMetrics: int, now: real)
      modifies this
      ensures activeRequests == old(activeRequests)[id := Progress(now, totalMetrics, 0, "in_progress", None)]
      ensures resultCache == old(resultCache)
    {
      activeRequests := activeRequests[id := Progress(now, totalMetrics, 0, "in_progress", None)];
    }

    /** `_update_request_progress`: only the completed count of a known request changes. */
    method UpdateRequestProgress(id: string, completed: int)
      modifies this
      ensures id !in old(activeRequests) ==> activeRequests == old(activeRequests)
      ensures id in old(activeRequests) ==>
        activeRequests == old(activeRequests)[id := old(activeRequests)[id].(completedMetrics := completed)]
      ensures resultCache == old(resultCache)
    {
      if id in activeRequests {
        activeRequests := activeRequests[id := activeRequests[id].(completedMetrics := completed)];
      }
    }

    /** `_complete_request`: only the status and end time of a known request change. */
    method CompleteRequest(id: string, status: string, now: real)
      modifies this
      ensures id !in old(activeRequests) ==> activeRequests == old(activeRequests)
      ensures id in old(activeRequests) ==>
        activeRequests == old(activeRequests)[id := old(activeRequests)[id].(status := status, endTime := Some(now))]
      ensures resultCache == old(resultCache)
    {
      if id in activeRequests {
        activeRequests := activeRequests[id := activeRequests[id].(status := status, endTime := Some(now))];
      }
    }

    /** `get_request_status`. */
    method GetRequestStatus(id: string, now: real) returns (r: StatusReply)
      ensures r == StatusOf(activeRequests, id, now)
    {
      if id !in activeRequests {
        return UnknownRequest("Request " + id + " not found");
      }
      var request := activeRequests[id];
      var progress := 0.0;
      if request.totalMetrics > 0 {
        progress := (request.completedMetrics as real / request.totalMetrics as real) * 100.0;
      }
      r := Status(id, request.status, progress, now - request.startTime,
                  request.totalMetrics, request.completedMetrics);
    }

    /** The steps after the coordinator call of `handle_evaluate_content`. */
    method FinishContentRequest(id: string, outcome: CoordinatorOutcome, timeoutText: string, endTime: real)
      returns (reply: Reply)
      requires Valid() && id in activeRequests
      modifies this
      ensures Valid()
      ensures var f := FinishContent(old(resultCache), cacheSize, id, outcome, timeoutText);
        && reply == f.reply && resultCache == f.cache
        && activeRequests == old(activeRequests)[id := old(activeRequests)[id].(status := f.status, endTime := Some(endTime))]
    {
      match outcome {
        case Finished(res) =>
          CompleteRequest(id, "completed", endTime);
          var ok := AddToCache(id, DumpedEvaluation(res));
          if !ok {
            CompleteRequest(id, "error", endTime);
            return ErrorReply("Error evaluating content: ");
          }
          reply := EvaluationReply(res);
        case TimedOut =>
          CompleteRequest(id, "timeout", endTime);
          reply := ErrorReply(TimeoutMessage(timeoutText));
        case Raised(msg) =>
          CompleteRequest(id, "error", endTime);
          reply := ErrorReply("Error evaluating content: " + msg);
        case ReturnedError(e) =>
          CompleteRequest(id, "completed", endTime);
          reply := ErrorReply(e);
      }
    }

    /** The steps after the coordinator call of `handle_evaluate_metric`. */
    method FinishMetricRequest(id: string, outcome: CoordinatorOutcome, timeoutText: string, endTime: real)
      returns (reply: Reply)
      requires Valid() && id in activeRequests
      modifies this
      ensures Valid()
      ensures var f := FinishMetric(old(resultCache), cacheSize, id, outcome, timeoutText);
        && reply == f.reply && resultCache == f.cache
        && activeRequests == old(activeRequests)[id := old(activeRequests)[id].(status := f.status, endTime := Some(endTime))]
    {
      match outcome {
        case Finished(res) =>
          CompleteRequest(id, "completed", endTime);
          if res.metricResults != [] {
            var response := SummaryOf(res.metricResults[0]);
            var ok := AddToCache(id, DumpedMetric(response));
            if !ok {
              CompleteRequest(id, "error", endTime);
              return ErrorReply("Error evaluating metric: ");
            }
            reply := MetricReply(response);
          } else {
            CompleteRequest(id, "error", endTime);
            reply := ErrorReply(NoResults);
          }
        case TimedOut =>
          CompleteRequest(id, "timeout", endTime);
          reply := ErrorReply(TimeoutMessage(timeoutText));
        case Raised(msg) =>
          CompleteRequest(id, "error", endTime);
          reply := ErrorReply("Error evaluating metric: " + msg);
        case ReturnedError(_) =>
          CompleteRequest(id, "completed", endTime);
          CompleteRequest(id, "error", endTime);
          reply := ErrorReply("Error evaluating metric: " + DictHasNoMetricResults);
      }
    }

    /** `handle_evaluate_content`. Blank content, a cached key and unknown
        metric names are answered without calling the coordinator; otherwise
        the request is tracked, the coordinator is called once, and its
        outcome decides the reply, the final status and the cache. */
    method HandleEvaluateContent(content: string, metrics: Option<seq<string>>, md5: string -> string,
                                 coordinator: (string, Option<seq<string>>) -> CoordinatorOutcome,
                                 showSeconds: real -> string, startTime: real, endTime: real)
      returns (reply: Reply, called: bool)
      requires Valid()
      modifies this
      ensures Valid()
      ensures var early := EarlyContentReply(old(resultCache), guidelines, md5, content, metrics);
        && (called <==> early.None?)
        && (early.Some? ==> reply == early.value && resultCache == old(resultCache)
                            && activeRequests == old(activeRequests))
        && (early.None? ==>
              var id := RequestId(md5, content, metrics);
              var total := if Requested(metrics) then |metrics.value| else |Expand(guidelines.categories)|;
              var f := FinishContent(old(resultCache), cacheSize, id, coordinator(content, metrics),
                                     showSeconds(requestTimeout));
              && reply == f.reply && resultCache == f.cache
              && activeRequests == old(activeRequests)[id := Progress(startTime, total, 0, f.status, Some(endTime))])
    {
      var early, id, all := CheckContentRequest(content, metrics, md5);
      if early.Some? {
        return early.value, false;
      }
      var total := if Requested(metrics) then |metrics.value| else |all|;
      TrackRequestProgress(id, total, startTime);
      called := true;
      reply := FinishContentRequest(id, coordinator(content, metrics), showSeconds(requestTimeout), endTime);
    }

    /** The checks `handle_evaluate_content` makes before calling the
        coordinator: blank content, a cached result, unknown metric names. */
    method CheckContentRequest(content: string, metrics: Option<seq<string>>, md5: string -> string)
      returns (early: Option<Reply>, id: string, all: seq<Metric>)
      ensures early == EarlyContentReply(resultCache, guidelines, md5, content, metrics)
      ensures id == RequestId(md5, content, metrics)
      ensures all == Expand(guidelines.categories)
    {
      id := RequestId(md5, content, metrics);
      all := ToMetricsList(guidelines);
      if IsBlank(content) {
        return Some(ErrorReply("Content cannot be empty")), id, all;
      }
      var cached := CheckCache(id);
      if cached.Some? {
        return Some(CachedReply(cached.value)), id, all;
      }
      if Requested(metrics) {
        var available := AvailableNames(guidelines);
        var invalid := InvalidNames(metrics.value, available);
        if invalid != [] {
          return Some(InvalidMetrics("Invalid metrics: " + Join(", ", invalid), available)), id, all;
        }
      }
      early := None;
    }

    /** `handle_evaluate_metric`: the same flow for one named metric, whose
        reply is the summary of the first result. */
    method HandleEvaluateMetric(content: string, metricName: string, md5: string -> string,
                                coordinator: (string, Option<seq<string>>) -> CoordinatorOutcome,
                                showSeconds: real -> string, startTime: real, endTime: real)
      returns (reply: Reply, called: bool)
      requires Valid()
      modifies this
      ensures Valid()
      ensures var early := EarlyMetricReply(old(resultCache), guidelines, md5, content, metricName);
        && (called <==> early.None?)
        && (early.Some? ==> reply == early.value && resultCache == old(resultCache)
                            && activeRequests == old(activeRequests))
        && (early.None? ==>
              var id := RequestId(md5, content, Some([metricName]));
              var f := FinishMetric(old(resultCache), cacheSize, id, coordinator(content, Some([metricName])),
                                    showSeconds(requestTimeout));
              && reply == f.reply && resultCache == f.cache
              && activeRequests == old(activeRequests)[id := Progress(startTime, 1, 0, f.status, Some(endTime))])
    {
      if IsBlank(content) {
        return ErrorReply("Content cannot be empty"), false;
      }
      var id := RequestId(md5, content, Some([metricName]));
      var cached := CheckCache(id);
      if cached.Some? {
        return CachedReply(cached.value), false;
      }
      var all := ToMetricsList(guidelines);
      var metric := FindMetric(all, metricName);
      if metric.None? {
        return InvalidMetric("Invalid metric: " + metricName, Names(all)), false;
      }
      TrackRequestProgress(id, 1, startTime);
      called := true;
      reply := FinishMetricRequest(id, coordinator(content, Some([metricName])), showSeconds(requestTimeout), endTime);
    }
  }
}
