/** The MCP response formatter: evaluation and metric results as response
    dictionaries, shaped by the format options, plus error responses, the
    textual summary and the improvement recommendations. */
module ResponseFormatting {
  import opened Wrappers
  import opened Text
  import opened Assoc
  import opened Sorting
  import opened Models

  /** `ResponseFormat` and its defaults. */
  datatype ResponseFormat = ResponseFormat(includeMetadata: bool, includeExamples: bool,
                                           includeConfidence: bool, formatType: string)

  const DefaultFormat: ResponseFormat := ResponseFormat(true, true, false, "default")

  function OptionsOrDefault(o: Option<ResponseFormat>): ResponseFormat {
    if o.Some? then o.value else DefaultFormat
  }

  // ---------------------------------------------------------------------
  // Truncation

  /** `_truncate_text`, including Python's slice with a negative end when
      the limit is below 3. */
  function TruncateText(text: string, maxLength: int): (r: string)
    ensures |text| <= maxLength ==> r == text
    ensures |text| > maxLength ==> r == SliceTo(text, maxLength - 3) + "..."
  {
    if |text| <= maxLength then text else SliceTo(text, maxLength - 3) + "..."
  }

  /** With a limit of at least 3 the result fits the limit: the text itself
      when it already fits, otherwise a prefix of it followed by "..." that
      is exactly `maxLength` long. */
  lemma TruncateFits(text: string, maxLength: int)
    requires maxLength >= 3
    ensures |TruncateText(text, maxLength)| <= maxLength
    ensures |text| > maxLength ==>
      && |TruncateText(text, maxLength)| == maxLength
      && TruncateText(text, maxLength) == text[..maxLength - 3] + "..."
  {
  }

  /** Below a limit of 3 the slice end is negative and counts from the end
      of the text, so the result is longer than the limit. */
  lemma TruncateShortLimit()
    ensures TruncateText("abcdef", 2) == "abcde..."
    ensures |TruncateText("abcdef", 2)| > 2
  {
    assert SliceTo("abcdef", -1) == "abcde";
  }

  // ---------------------------------------------------------------------
  // Metric results

  /** A formatted metric result; the optional keys are `None` when absent. */
  datatype FormattedMetric = FormattedMetric(
    metric: string,
    category: string,
    score: int,
    reasoning: string,
    improvementAdvice: string,
    positiveExamples: Option<seq<string>>,
    improvementExamples: Option<seq<string>>,
    confidence: Option<real>)

  /** `format_metric_result`: the example lists appear exactly when examples
      are requested, the confidence exactly when it is requested. */
  function FormatMetricResult(m: MetricResult, opts: ResponseFormat): (r: FormattedMetric)
    ensures r.metric == m.metric.name && r.category == m.metric.category && r.score == m.score
    ensures r.reasoning == m.reasoning && r.improvementAdvice == m.improvementAdvice
    ensures r.positiveExamples.Some? <==> opts.includeExamples
    ensures r.improvementExamples.Some? <==> opts.includeExamples
    ensures opts.includeExamples ==>
      r.positiveExamples.value == m.positiveExamples && r.improvementExamples.value == m.improvementExamples
    ensures r.confidence.Some? <==> opts.includeConfidence
    ensures opts.includeConfidence ==> r.confidence.value == m.confidence
  {
    FormattedMetric(m.metric.name, m.metric.category, m.score, m.reasoning, m.improvementAdvice,
                    if opts.includeExamples then Some(m.positiveExamples) else None,
                    if opts.includeExamples then Some(m.improvementExamples) else None,
                    if opts.includeConfidence then Some(m.confidence as real) else None)
  }

  /** The first example, at most 50 characters long. */
  function FirstExample(examples: seq<string>): (r: seq<string>)
    ensures |r| == if examples == [] then 0 else 1
    ensures forall k :: 0 <= k < |r| ==> |r[k]| <= 50
  {
    TruncateFits(if examples == [] then "" else examples[0], 50);
    if examples == [] then [] else [TruncateText(examples[0], 50)]
  }

  /** The compact rewrite of one formatted metric. */
  function Compact(f: FormattedMetric): (r: FormattedMetric)
    ensures |r.reasoning| <= 100 && |r.improvementAdvice| <= 100
    ensures r.positiveExamples.Some? <==> f.positiveExamples.Some?
    ensures r.improvementExamples.Some? <==> f.improvementExamples.Some?
    ensures r.positiveExamples.Some? ==>
      |r.positiveExamples.value| <= 1 && forall k :: 0 <= k < |r.positiveExamples.value| ==> |r.positiveExamples.value[k]| <= 50
    ensures r.improvementExamples.Some? ==>
      |r.improvementExamples.value| <= 1 && forall k :: 0 <= k < |r.improvementExamples.value| ==> |r.improvementExamples.value[k]| <= 50
    ensures r.metric == f.metric && r.category == f.category && r.score == f.score
    ensures r.confidence == f.confidence
  {
    TruncateFits(f.reasoning, 100);
    TruncateFits(f.improvementAdvice, 100);
    f.(reasoning := TruncateText(f.reasoning, 100),
       improvementAdvice := TruncateText(f.improvementAdvice, 100),
       positiveExamples := if f.positiveExamples.Some? then Some(FirstExample(f.positiveExamples.value)) else None,
       improvementExamples := if f.improvementExamples.Some? then Some(FirstExample(f.improvementExamples.value)) else None)
  }

  // ---------------------------------------------------------------------
  // Summary

  /** A category or metric name with its score. */
  type Scored = (string, real)

  function ScoreOf(p: Scored): real {
    p.1
  }

  /** The first entry after sorting by score, highest first; ("None", 0) for none. */
  function Strongest(ps: seq<Scored>): (r: Scored)
    ensures ps == [] ==> r == ("None", 0.0)
  {
    var sorted := SortByDescending(ps, ScoreOf);
    if sorted != [] then sorted[0] else ("None", 0.0)
  }

  /** The last entry after sorting, highest first, or the strongest when
      there are fewer than two. */
  function Weakest(ps: seq<Scored>): (r: Scored)
    ensures |ps| <= 1 ==> r == Strongest(ps)
  {
    var sorted := SortByDescending(ps, ScoreOf);
    if |sorted| > 1 then sorted[|sorted| - 1] else Strongest(ps)
  }

  lemma SortedMembers(ps: seq<Scored>)
    ensures forall p :: p in SortByDescending(ps, ScoreOf) <==> p in ps
  {
    var sorted := SortByDescending(ps, ScoreOf);
    forall p ensures p in sorted <==> p in ps {
      assert p in sorted <==> p in multiset(sorted);
      assert p in ps <==> p in multiset(ps);
    }
  }

  /** The strongest entry is one of the entries and has the highest score. */
  lemma StrongestIsMaximum(ps: seq<Scored>)
    requires ps != []
    ensures Strongest(ps) in ps
    ensures forall p :: p in ps ==> p.1 <= Strongest(ps).1
  {
    var sorted := SortByDescending(ps, ScoreOf);
    SortedMembers(ps);
    SortByDescendingSorted(ps, ScoreOf);
    assert |sorted| == |multiset(ps)| == |ps|;
    forall p | p in ps ensures p.1 <= Strongest(ps).1 {
      var i :| 0 <= i < |sorted| && sorted[i] == p;
      if i > 0 {
        assert ScoreOf(sorted[0]) >= ScoreOf(sorted[i]);
      }
    }
  }

  /** The weakest entry is one of the entries and has the lowest score. */
  lemma WeakestIsMinimum(ps: seq<Scored>)
    requires ps != []
    ensures Weakest(ps) in ps
    ensures forall p :: p in ps ==> Weakest(ps).1 <= p.1
  {
    var sorted := SortByDescending(ps, ScoreOf);
    SortedMembers(ps);
    SortByDescendingSorted(ps, ScoreOf);
    assert |sorted| == |multiset(ps)| == |ps|;
    var last := |sorted| - 1;
    forall p | p in ps ensures Weakest(ps).1 <= p.1 {
      var i :| 0 <= i < |sorted| && sorted[i] == p;
      if |sorted| == 1 {
        assert sorted[0] == sorted[i];
      } else if i < last {
        assert ScoreOf(sorted[i]) >= ScoreOf(sorted[last]);
      }
    }
  }

  /** The metrics as name and score pairs, in result order. */
  function MetricScores(rs: seq<MetricResult>): (r: seq<Scored>)
    ensures |r| == |rs|
    ensures forall k :: 0 <= k < |rs| ==> r[k] == (rs[k].metric.name, rs[k].score as real)
  {
    seq(|rs|, k requires 0 <= k < |rs| => (rs[k].metric.name, rs[k].score as real))
  }

  /** `_generate_summary`, with float formatting to one decimal (`fmt1`) as
      a parameter. Metric scores are integers and print as such. */
  function Summary(result: EvaluationResult, fmt1: real -> string): string {
    var hc := Strongest(result.categoryScores);
    var lc := Weakest(result.categoryScores);
    var hm := Strongest(MetricScores(result.metricResults));
    var lm := Weakest(MetricScores(result.metricResults));
    "Overall score: " + fmt1(result.overallScore) + "/5.0. "
    + "Strongest in " + hc.0 + " (" + fmt1(hc.1) + "/5.0), "
    + "with highest score in " + hm.0 + " (" + IntToDecimal(hm.1.Floor) + "/5). "
    + "Areas for improvement include " + lc.0 + " (" + fmt1(lc.1) + "/5.0), "
    + "particularly in " + lm.0 + " (" + IntToDecimal(lm.1.Floor) + "/5)."
  }

  // ---------------------------------------------------------------------
  // Recommendations

  function ResultScore(m: MetricResult): real {
    m.score as real
  }

  /** The (up to) three lowest-scoring metrics: a stable ascending sort by
      score, then its first three. */
  function LowestMetrics(rs: seq<MetricResult>): (r: seq<MetricResult>)
    ensures |r| == if |rs| < 3 then |rs| else 3
  {
    SliceTo(SortBy(rs, ResultScore), 3)
  }

  /** The recommended metrics are the lowest-scoring ones: every metric left
      out scores at least as high as every metric taken, they are taken in
      ascending score order, and metrics of equal score keep their order. */
  lemma LowestMetricsAreLowest(rs: seq<MetricResult>, v: real)
    ensures var sorted := SortBy(rs, ResultScore);
      && multiset(sorted) == multiset(rs)
      && LowestMetrics(rs) == sorted[..|LowestMetrics(rs)|]
      && (forall i, j :: 0 <= i < |LowestMetrics(rs)| <= j < |sorted| ==> sorted[i].score <= sorted[j].score)
      && (forall i, j :: 0 <= i < j < |LowestMetrics(rs)| ==> sorted[i].score <= sorted[j].score)
      && WithKey(sorted, ResultScore, v) == WithKey(rs, ResultScore, v)
  {
    var sorted := SortBy(rs, ResultScore);
    SortBySorted(rs, ResultScore);
    SortByStable(rs, ResultScore, v);
    forall i, j | 0 <= i < j < |sorted| ensures sorted[i].score <= sorted[j].score {
      assert ResultScore(sorted[i]) <= ResultScore(sorted[j]);
    }
  }

  /** "Improve {name} ({score}/5): {advice}". */
  function Recommendation(m: MetricResult): string {
    "Improve " + m.metric.name + " (" + IntToDecimal(m.score) + "/5): " + m.improvementAdvice
  }

  function Recommendations(rs: seq<MetricResult>): (r: seq<string>)
    ensures |r| == |LowestMetrics(rs)|
    ensures forall k :: 0 <= k < |r| ==> r[k] == Recommendation(LowestMetrics(rs)[k])
  {
    var lowest := LowestMetrics(rs);
    seq(|lowest|, k requires 0 <= k < |lowest| => Recommendation(lowest[k]))
  }

  /** `_generate_recommendations`: one line per lowest-scoring metric. */
  method GenerateRecommendations(rs: seq<MetricResult>) returns (recs: seq<string>)
    ensures recs == Recommendations(rs)
    ensures |recs| <= 3
  {
    var sortedMetrics := SortBy(rs, ResultScore);
    var lowest := SliceTo(sortedMetrics, 3);
    assert lowest == LowestMetrics(rs);
    recs := RecommendationLines(lowest);
  }

  /** The loop of `_generate_recommendations`: a line for each metric. */
  method RecommendationLines(lowest: seq<MetricResult>) returns (recs: seq<string>)
    ensures |recs| == |lowest|
    ensures forall k :: 0 <= k < |lowest| ==> recs[k] == Recommendation(lowest[k])
  {
    recs := [];
    var i := 0;
    while i < |lowest|
      invariant 0 <= i <= |lowest| && |recs| == i
      invariant forall k :: 0 <= k < i ==> recs[k] == Recommendation(lowest[k])
    {
      recs := recs + [Recommendation(lowest[i])];
      i := i + 1;
    }
  }

  // ---------------------------------------------------------------------
  // Evaluation results

  datatype CategoryEntry = CategoryEntry(category: string, score: real)

  /** A formatted evaluation result; the optional keys are `None` when absent. */
  datatype FormattedEvaluation = FormattedEvaluation(
    overallScore: real,
    categoryScores: seq<CategoryEntry>,
    metricResults: seq<FormattedMetric>,
    timestamp: Option<string>,
    contentHash: Option<string>,
    metadata: Option<seq<(string, MetaValue)>>,
    summary: Option<string>,
    recommendations: Option<seq<string>>)

  /** One `{category, score}` entry per category score, in dictionary order. */
  function CategoryEntries(cs: seq<(string, real)>): (r: seq<CategoryEntry>)
    ensures |r| == |cs|
    ensures forall k :: 0 <= k < |cs| ==> r[k] == CategoryEntry(cs[k].0, cs[k].1)
  {
    seq(|cs|, k requires 0 <= k < |cs| => CategoryEntry(cs[k].0, cs[k].1))
  }

  function FormattedMetrics(rs: seq<MetricResult>, opts: ResponseFormat): (r: seq<FormattedMetric>)
    ensures |r| == |rs|
    ensures forall k :: 0 <= k < |rs| ==>
      r[k] == if opts.formatType == "compact" then Compact(FormatMetricResult(rs[k], opts))
              else FormatMetricResult(rs[k], opts)
  {
    seq(|rs|, k requires 0 <= k < |rs| =>
      if opts.formatType == "compact" then Compact(FormatMetricResult(rs[k], opts))
      else FormatMetricResult(rs[k], opts))
  }

  /** `format_evaluation_result` as a value, with `isoformat` as `iso` and
      one-decimal float formatting as `fmt1`. The timestamp and hash are
      present exactly when metadata is requested, the metadata only when it
      is also non-empty, and the summary and recommendations exactly for the
      detailed format. */
  function FormattedEvaluationOf(result: EvaluationResult, opts: ResponseFormat,
                                 iso: DateTime -> string, fmt1: real -> string): (r: FormattedEvaluation)
    ensures r.overallScore == result.overallScore as real
    ensures r.timestamp.Some? <==> opts.includeMetadata
    ensures r.contentHash.Some? <==> opts.includeMetadata
    ensures opts.includeMetadata ==> r.contentHash.value == result.contentHash
    ensures r.metadata.Some? <==> opts.includeMetadata && result.metadata != []
    ensures r.metadata.Some? ==> r.metadata.value == result.metadata
    ensures r.summary.Some? <==> opts.formatType == "detailed"
    ensures r.recommendations.Some? <==> opts.formatType == "detailed"
    ensures r.categoryScores == CategoryEntries(result.categoryScores)
    ensures r.metricResults == FormattedMetrics(result.metricResults, opts)
  {
    var detailed := opts.formatType == "detailed";
    FormattedEvaluation(
      result.overallScore as real,
      CategoryEntries(result.categoryScores),
      FormattedMetrics(result.metricResults, opts),
      if opts.includeMetadata then Some(iso(result.timestamp)) else None,
      if opts.includeMetadata then Some(result.contentHash) else None,
      if opts.includeMetadata && result.metadata != [] then Some(result.metadata) else None,
      if detailed then Some(Summary(result, fmt1)) else None,
      if detailed then Some(Recommendations(result.metricResults)) else None)
  }

  /** In the compact format every metric keeps its score and keys, its
      reasoning and advice are at most 100 characters, and each example list
      holds at most one example of at most 50 characters. */
  lemma CompactFormatBounds(result: EvaluationResult, opts: ResponseFormat,
                            iso: DateTime -> string, fmt1: real -> string, k: nat)
    requires opts.formatType == "compact" && k < |result.metricResults|
    ensures var f := FormattedEvaluationOf(result, opts, iso, fmt1).metricResults[k];
      && f.score == result.metricResults[k].score
      && |f.reasoning| <= 100 && |f.improvementAdvice| <= 100
      && (f.positiveExamples.Some? <==> opts.includeExamples)
      && (f.positiveExamples.Some? ==>
            |f.positiveExamples.value| <= 1 && forall e :: e in f.positiveExamples.value ==> |e| <= 50)
      && (f.improvementExamples.Some? ==>
            |f.improvementExamples.value| <= 1 && forall e :: e in f.improvementExamples.value ==> |e| <= 50)
  {
  }

  /** Building the metric list: one formatted entry per metric result. */
  method FormatMetricList(rs: seq<MetricResult>, opts: ResponseFormat) returns (r: seq<FormattedMetric>)
    ensures |r| == |rs|
    ensures forall k :: 0 <= k < |rs| ==> r[k] == FormatMetricResult(rs[k], opts)
  {
    r := [];
    var i := 0;
    while i < |rs|
      invariant 0 <= i <= |rs| && |r| == i
      invariant forall k :: 0 <= k < i ==> r[k] == FormatMetricResult(rs[k], opts)
    {
      r := r + [FormatMetricResult(rs[i], opts)];
      i := i + 1;
    }
  }

  /** Building the category list in dictionary order. */
  method FormatCategoryList(cs: seq<(string, real)>) returns (r: seq<CategoryEntry>)
    ensures r == CategoryEntries(cs)
  {
    r := [];
    var i := 0;
    while i < |cs|
      invariant 0 <= i <= |cs| && |r| == i
      invariant forall k :: 0 <= k < i ==> r[k] == CategoryEntry(cs[k].0, cs[k].1)
    {
      r := r + [CategoryEntry(cs[i].0, cs[i].1)];
      i := i + 1;
    }
  }

  /** The compact branch: each formatted metric is rewritten in place. */
  method CompactInPlace(fs: seq<FormattedMetric>) returns (r: seq<FormattedMetric>)
    ensures |r| == |fs|
    ensures forall k :: 0 <= k < |fs| ==> r[k] == Compact(fs[k])
  {
    r := fs;
    var i := 0;
    while i < |r|
      invariant 0 <= i <= |r| && |r| == |fs|
      invariant forall k :: 0 <= k < i ==> r[k] == Compact(fs[k])
      invariant forall k :: i <= k < |r| ==> r[k] == fs[k]
    {
      r := r[i := Compact(r[i])];
      i := i + 1;
    }
  }

  /** `format_evaluation_result`. */
  method FormatEvaluationResult(result: EvaluationResult, formatOptions: Option<ResponseFormat>,
                                iso: DateTime -> string, fmt1: real -> string)
    returns (r: FormattedEvaluation)
    ensures r == FormattedEvaluationOf(result, OptionsOrDefault(formatOptions), iso, fmt1)
  {
    var opts := OptionsOrDefault(formatOptions);
    var metricResults := FormatMetricList(result.metricResults, opts);
    var categoryScores := FormatCategoryList(result.categoryScores);
    r := FormattedEvaluation(result.overallScore as real, categoryScores, metricResults,
                             None, None, None, None, None);
    if opts.includeMetadata {
      r := r.(timestamp := Some(iso(result.timestamp)), contentHash := Some(result.contentHash));
      if result.metadata != [] {
        r := r.(metadata := Some(result.metadata));
      }
    }
    if opts.formatType == "compact" {
      metricResults := CompactInPlace(metricResults);
      r := r.(metricResults := metricResults);
    } else if opts.formatType == "detailed" {
      var recs := GenerateRecommendations(result.metricResults);
      r := r.(summary := Some(Summary(result, fmt1)), recommendations := Some(recs));
    }
    assert r.metricResults == FormattedMetrics(result.metricResults, opts);
  }

  // ---------------------------------------------------------------------
  // Errors

  /** `dict.update` with each pair in turn. */
  function UpdateAll(a: seq<(string, MetaValue)>, ds: seq<(string, MetaValue)>): seq<(string, MetaValue)> {
    if ds == [] then a else Put(UpdateAll(a, ds[..|ds| - 1]), ds[|ds| - 1].0, ds[|ds| - 1].1)
  }

  /** `format_error`: `{"error": message}` updated with the details, if any. */
  function FormatError(message: string, details: Option<seq<(string, MetaValue)>>): seq<(string, MetaValue)> {
    var base := [("error", MetaText(message))];
    if details.None? || details.value == [] then base else UpdateAll(base, details.value)
  }

  /** Looking up an updated dictionary: the last pair of a key wins over
      the original entry. */
  lemma {:induction false} UpdateAllGet(a: seq<(string, MetaValue)>, ds: seq<(string, MetaValue)>, k: string)
    requires UniqueKeys(ds)
    ensures Get(UpdateAll(a, ds), k) == if HasKey(ds, k) then Get(ds, k) else Get(a, k)
  {
    if ds != [] {
      var init := ds[..|ds| - 1];
      var last := ds[|ds| - 1];
      GetLastUnique(ds, k);
      UpdateAllGet(a, init, k);
      GetPut(UpdateAll(a, init), last.0, last.1, k);
    }
  }

  /** An error response: the details' own keys keep their values, and
      "error" holds the message unless the details override it. */
  lemma FormatErrorGet(message: string, details: Option<seq<(string, MetaValue)>>, k: string)
    requires details.Some? ==> UniqueKeys(details.value)
    ensures var r := FormatError(message, details);
      Get(r, k) == if details.Some? && HasKey(details.value, k) then Get(details.value, k)
                   else if k == "error" then Some(MetaText(message)) else None
  {
    var base := [("error", MetaText(message))];
    if k == "error" {
      IndexOfAt(base, k, 0);
    } else {
      assert !HasKey(base, k) by {
        assert Keys(base)[0] == "error";
      }
    }
    if details.Some? && details.value != [] {
      UpdateAllGet(base, details.value, k);
    }
  }
}
