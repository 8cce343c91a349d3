/** The coordinator adapter of the MCP server: per-request progress
    callbacks, a count of finished metric evaluations reported to them, and
    the error mapping around the coordinator's evaluation. */
module CoordinatorAdapting {
  import opened Wrappers
  import opened Models
  import opened GuidelinesStore
  import opened Coordinator
  import opened RequestHandling
  import opened Text

  /** A registered callback, known by an identity of its own. */
  datatype Callback = Callback(id: nat)

  /** One invocation `callback(request_id, completed, total)`. */
  datatype ProgressCall = ProgressCall(callback: Callback, requestId: string, completed: int, total: int)

  /** The number of metrics the adapter expects: those whose name passes a
      non-empty filter, or all of them. */
  function TotalMetrics(g: Guidelines, filter: Option<seq<string>>): (n: nat)
    ensures n <= |Expand(g.categories)|
    ensures (filter.None? || filter.value == []) ==> n == |Expand(g.categories)|
  {
    |SelectMetrics(Expand(g.categories), filter)|
  }

  /** The number of evaluations that returned instead of raising. */
  function FinishedCount(os: seq<Outcome>): (n: nat)
    ensures n <= |os|
  {
    if os == [] then 0 else FinishedCount(os[..|os| - 1]) + (if os[|os| - 1].Ok? then 1 else 0)
  }

  /** The calls a registered callback receives: every finished evaluation
      raises the count by one, so the counts run 1, 2, … up to the number
      finished. */
  function ProgressCalls(cb: Callback, requestId: string, os: seq<Outcome>, total: int): (r: seq<ProgressCall>)
    ensures |r| == FinishedCount(os)
    ensures forall k :: 0 <= k < |r| ==> r[k] == ProgressCall(cb, requestId, k + 1, total)
  {
    seq(FinishedCount(os), k requires 0 <= k < FinishedCount(os) => ProgressCall(cb, requestId, k + 1, total))
  }

  /** Finished evaluations are exactly the successful outcomes. */
  lemma {:induction false} FinishedCountIsSuccesses(os: seq<Outcome>)
    ensures FinishedCount(os) == |Successes(os)|
  {
    if os != [] {
      FinishedCountIsSuccesses(os[..|os| - 1]);
    }
  }

  /** When every evaluation returns, the last call reports all of them done. */
  lemma {:induction false} AllFinishedCount(os: seq<Outcome>)
    requires forall k :: 0 <= k < |os| ==> os[k].Ok?
    ensures FinishedCount(os) == |os|
  {
    if os != [] {
      var init := os[..|os| - 1];
      forall k | 0 <= k < |init| ensures init[k].Ok? {
        assert init[k] == os[k];
      }
      AllFinishedCount(init);
    }
  }

  /** The count never exceeds the number of dispatched evaluations, which
      is the adapter's total whenever the coordinator dispatches anything. */
  lemma CountWithinTotal(content: string, g: Guidelines, filter: Option<seq<string>>,
                         evaluate: (string, Metric) -> Outcome)
    requires PreDispatch(content, g, filter).Ok?
    ensures var ms := PreDispatch(content, g, filter).value;
      FinishedCount(Outcomes(content, ms, evaluate)) <= |ms| == TotalMetrics(g, filter)
  {
  }

  /** The error dictionaries the adapter returns. */
  datatype AdapterError =
    | ErrorDict(error: string)
    | InvalidMetricDict(error: string, availableMetrics: seq<string>)

  const ContentErrorPrefix: string := "Error evaluating content: "

  /** A gathering that succeeds after dispatching something has a result. */
  lemma GatheredNonEmpty(os: seq<Outcome>)
    requires os != [] && Gather(os).Ok?
    ensures Gather(os).value != []
  {
    if Successes(os) == [] {
      SuccessesAllOk(os);
    }
  }

  /** What `evaluate_content` returns: a failed pre-check, a failed gathering
      or a rejected result as "Error evaluating content: …", and otherwise
      the coordinator's result, whose metric results are the successful
      evaluations of the selected metrics, in order. */
  function AdapterContentResult(content: string, g: Guidelines, filter: Option<seq<string>>,
                                evaluate: (string, Metric) -> Outcome, md5: string -> string,
                                timestamp: DateTime, evaluationTime: string)
    : (r: Result<EvaluationResult, AdapterError>)
    ensures r.Err? ==> r.error.ErrorDict? && IsPrefix(ContentErrorPrefix, r.error.error)
    ensures r.Ok? ==>
      && PreDispatch(content, g, filter).Ok?
      && r.value.metricResults == Successes(Outcomes(content, PreDispatch(content, g, filter).value, evaluate))
      && r.value.contentHash == md5(content) && r.value.timestamp == timestamp
  {
    var pre := PreDispatch(content, g, filter);
    if pre.Err? then Err(ErrorDict(ContentErrorPrefix + pre.error))
    else
      var os := Outcomes(content, pre.value, evaluate);
      var gathered := Gather(os);
      if gathered.Err? then Err(ErrorDict(ContentErrorPrefix + gathered.error))
      else
        var (overall, cs) := Scores(gathered.value, g);
        var made := NewEvaluationResult(md5(content), timestamp, overall, cs, gathered.value,
                                        Metadata(|gathered.value|, |pre.value|, evaluationTime));
        if made.Ok? then Ok(made.value) else Err(ErrorDict(ContentErrorPrefix + made.error))
  }

  /** A successful `evaluate_content` has at least one metric result, so
      the "no results were returned" branch of `evaluate_metric` is never
      taken. */
  lemma SuccessfulEvaluationHasResults(content: string, g: Guidelines, filter: Option<seq<string>>,
                                       evaluate: (string, Metric) -> Outcome, md5: string -> string,
                                       timestamp: DateTime, evaluationTime: string)
    requires AdapterContentResult(content, g, filter, evaluate, md5, timestamp, evaluationTime).Ok?
    ensures AdapterContentResult(content, g, filter, evaluate, md5, timestamp, evaluationTime).value.metricResults != []
  {
    GatheredNonEmpty(Outcomes(content, PreDispatch(content, g, filter).value, evaluate));
  }

  /** No successes when every evaluation failed. */
  lemma {:induction false} SuccessesAllFailed(os: seq<Outcome>)
    requires forall k :: 0 <= k < |os| ==> os[k].Err?
    ensures Successes(os) == []
  {
    if os != [] {
      var init := os[..|os| - 1];
      assert forall k :: 0 <= k < |init| ==> init[k] == os[k];
      SuccessesAllFailed(init);
    }
  }

  /** The adapter's `evaluate_content`, returning in time, as the request
      handler receives it: a result, or the error dictionary it returns. */
  function AsCoordinatorOutcome(r: Result<EvaluationResult, AdapterError>): CoordinatorOutcome {
    match r
    case Ok(res) => Finished(res)
    case Err(e) => ReturnedError(e.error)
  }

  /** With the adapter as the request handler's coordinator, a content
      request whose every evaluation fails is answered with "Error
      evaluating content: All metric evaluations failed: …" for the first
      failure, yet marked "completed", and nothing is cached. */
  lemma AllFailedMarkedCompleted(content: string, g: Guidelines, filter: Option<seq<string>>,
                                 evaluate: (string, Metric) -> Outcome, md5: string -> string,
                                 timestamp: DateTime, evaluationTime: string,
                                 cache: seq<(string, Cached)>, cacheSize: int, id: string, timeoutText: string)
    requires PreDispatch(content, g, filter).Ok?
    requires forall m :: m in PreDispatch(content, g, filter).value ==> evaluate(content, m).Err?
    ensures var os := Outcomes(content, PreDispatch(content, g, filter).value, evaluate);
      var r := AdapterContentResult(content, g, filter, evaluate, md5, timestamp, evaluationTime);
      var f := FinishContent(cache, cacheSize, id, AsCoordinatorOutcome(r), timeoutText);
      && FirstFailure(os).Some?
      && r == Err(ErrorDict(ContentErrorPrefix + AllFailed(FirstFailure(os).value)))
      && f.reply == ErrorReply(ContentErrorPrefix + AllFailed(FirstFailure(os).value))
      && f.status == "completed" && f.cache == cache
  {
    var ms := PreDispatch(content, g, filter).value;
    var os := Outcomes(content, ms, evaluate);
    forall k | 0 <= k < |os| ensures os[k].Err? {
      assert os[k] == evaluate(content, ms[k]) && ms[k] in ms;
    }
    SuccessesAllFailed(os);
    assert os[0].Err?;
  }

  class CoordinatorAdapter {
    const coordinator: CoordinatorAgent
    var progressCallbacks: map<string, Callback>

    constructor (coordinator: CoordinatorAgent)
      ensures this.coordinator == coordinator && progressCallbacks == map[]
    {
      this.coordinator := coordinator;
      progressCallbacks := map[];
    }

    /** `register_progress_callback`: replaces any earlier callback of the request. */
    method RegisterProgressCallback(requestId: string, callback: Callback)
      modifies this
      ensures progressCallbacks == old(progressCallbacks)[requestId := callback]
    {
      progressCallbacks := progressCallbacks[requestId := callback];
    }

    /** `unregister_progress_callback`: a no-op for an unknown request. */
    method UnregisterProgressCallback(requestId: string)
      modifies this
      ensures progressCallbacks == old(progressCallbacks) - {requestId}
      ensures requestId !in old(progressCallbacks) ==> progressCallbacks == old(progressCallbacks)
    {
      if requestId in progressCallbacks {
        progressCallbacks := progressCallbacks - {requestId};
      }
    }

    /** The wrapped evaluation: after each evaluation that returns, the
        counter rises by one and the request's callback, if registered for a
        non-empty request id, is called with the count and the total. */
    method CountCompletions(os: seq<Outcome>, requestId: Option<string>, total: int)
      returns (completed: nat, calls: seq<ProgressCall>)
      ensures completed == FinishedCount(os)
      ensures calls == if requestId.Some? && requestId.value != "" && requestId.value in progressCallbacks
                       then ProgressCalls(progressCallbacks[requestId.value], requestId.value, os, total)
                       else []
    {
      var notify := requestId.Some? && requestId.value != "" && requestId.value in progressCallbacks;
      completed := 0;
      calls := [];
      var i := 0;
      while i < |os|
        invariant 0 <= i <= |os|
        invariant completed == FinishedCount(os[..i])
        invariant notify ==>
          calls == ProgressCalls(progressCallbacks[requestId.value], requestId.value, os[..i], total)
        invariant !notify ==> calls == []
      {
        assert os[..i + 1][..i] == os[..i];
        assert os[..i + 1][i] == os[i];
        if os[i].Ok? {
          completed := completed + 1;
          if notify {
            calls := calls + [ProgressCall(progressCallbacks[requestId.value], requestId.value, completed, total)];
          }
        }
        i := i + 1;
      }
      assert os[..|os|] == os;
    }

    /** `evaluate_content`: the coordinator's result, or its exception as
        "Error evaluating content: …"; the callback calls record progress. */
    method EvaluateContent(content: string, g: Guidelines, metricsToEvaluate: Option<seq<string>>,
                           requestId: Option<string>, evaluate: (string, Metric) -> Outcome,
                           md5: string -> string, timestamp: DateTime, evaluationTime: string)
      returns (r: Result<EvaluationResult, AdapterError>, calls: seq<ProgressCall>)
      ensures r == AdapterContentResult(content, g, metricsToEvaluate, evaluate, md5, timestamp, evaluationTime)
      ensures var pre := PreDispatch(content, g, metricsToEvaluate);
        calls == if pre.Ok? && requestId.Some? && requestId.value != "" && requestId.value in progressCallbacks
                 then ProgressCalls(progressCallbacks[requestId.value], requestId.value,
                                    Outcomes(content, pre.value, evaluate), TotalMetrics(g, metricsToEvaluate))
                 else []
    {
      var metrics := ToMetricsList(g);
      var total := |SelectMetrics(metrics, metricsToEvaluate)|;
      var res, dispatched := coordinator.EvaluateContent(content, g, metricsToEvaluate, evaluate, md5,
                                                         timestamp, evaluationTime);
      var _, c := CountCompletions(Outcomes(content, dispatched, evaluate), requestId, total);
      calls := c;
      if res.Err? {
        return Err(ErrorDict(ContentErrorPrefix + res.error)), calls;
      }
      r := Ok(res.value);
    }

    /** `evaluate_metric`: an unknown name lists the available metrics
        without evaluating; otherwise the single-metric evaluation's error
        is passed on, and its first metric result returned. */
    method EvaluateMetric(content: string, metricName: string, g: Guidelines, requestId: Option<string>,
                          evaluate: (string, Metric) -> Outcome, md5: string -> string,
                          timestamp: DateTime, evaluationTime: string)
      returns (r: Result<MetricResult, AdapterError>, calls: seq<ProgressCall>)
      ensures FindMetric(Expand(g.categories), metricName).None? ==>
        r == Err(InvalidMetricDict("Invalid metric: " + metricName, Names(Expand(g.categories)))) && calls == []
      ensures FindMetric(Expand(g.categories), metricName).Some? ==>
        match AdapterContentResult(content, g, Some([metricName]), evaluate, md5, timestamp, evaluationTime)
        case Err(e) => r == Err(e)
        case Ok(res) => r == if res.metricResults == [] then Err(ErrorDict(NoResults)) else Ok(res.metricResults[0])
      ensures FindMetric(Expand(g.categories), metricName).Some? ==>
        var pre := PreDispatch(content, g, Some([metricName]));
        calls == if pre.Ok? && requestId.Some? && requestId.value != "" && requestId.value in progressCallbacks
                 then ProgressCalls(progressCallbacks[requestId.value], requestId.value,
                                    Outcomes(content, pre.value, evaluate), TotalMetrics(g, Some([metricName])))
                 else []
      ensures r.Ok? ==>
        r.value == Successes(Outcomes(content, SelectMetrics(Expand(g.categories), Some([metricName])), evaluate))[0]
    {
      var metrics := ToMetricsList(g);
      var metric := FindMetric(metrics, metricName);
      if metric.None? {
        return Err(InvalidMetricDict("Invalid metric: " + metricName, Names(metrics))), [];
      }
      var result;
      result, calls := EvaluateContent(content, g, Some([metricName]), requestId, evaluate, md5,
                                       timestamp, evaluationTime);
      if result.Err? {
        return Err(result.error), calls;
      }
      if result.value.metricResults == [] {
        return Err(ErrorDict(NoResults)), calls;
      }
      r := Ok(result.value.metricResults[0]);
    }
  }
}
