/** The coordinator agent: the checks made before any metric is dispatched,
    the filtering of the flattened metrics, one evaluation per selected
    metric, the gathering of their outcomes and the two-level weighted
    score aggregation. Both copies of the agent share this logic and differ
    only in their default concurrency bound. */
module Coordinator {
  import opened Wrappers
  import opened Text
  import opened Assoc
  import opened Models
  import opened LlmClient
  import opened GuidelinesStore
  import opened MetricEvaluator
  import opened Grouping

  // ---------------------------------------------------------------------
  // Score aggregation: metric -> category

  /** The sum of score times metric weight. */
  function WeightedSum(rs: seq<MetricResult>): real {
    if rs == [] then 0.0
    else WeightedSum(rs[..|rs| - 1]) + (rs[|rs| - 1].score as real) * rs[|rs| - 1].metric.weight
  }

  /** The sum of the metric weights. */
  function TotalWeight(rs: seq<MetricResult>): (w: real)
    ensures w >= 0.0
  {
    if rs == [] then 0.0 else TotalWeight(rs[..|rs| - 1]) + rs[|rs| - 1].metric.weight
  }

  /** A category receives a score only when it has results of positive total weight. */
  predicate Scored(rs: seq<MetricResult>) {
    rs != [] && TotalWeight(rs) > 0.0
  }

  /** The weight-normalised mean of the scores. */
  function Mean(rs: seq<MetricResult>): real
    requires TotalWeight(rs) > 0.0
  {
    WeightedSum(rs) / TotalWeight(rs)
  }

  /** The category scores over grouped results, assigned in group order. */
  function ScoresOf(groups: seq<(string, seq<MetricResult>)>): seq<(string, real)> {
    if groups == [] then []
    else
      var acc := ScoresOf(groups[..|groups| - 1]);
      var (c, rs) := groups[|groups| - 1];
      if Scored(rs) then Put(acc, c, Mean(rs)) else acc
  }

  /** The category scores of a list of results. */
  function CategoryScores(results: seq<MetricResult>): seq<(string, real)> {
    ScoresOf(GroupByCategory(results))
  }

  // ---------------------------------------------------------------------
  // Score aggregation: category -> overall

  /** The category weights of the guidelines, by name. */
  function WeightsOf(cats: seq<(string, GuidelineCategory)>): seq<(string, CategoryWeight)> {
    if cats == [] then []
    else Put(WeightsOf(cats[..|cats| - 1]), cats[|cats| - 1].0, cats[|cats| - 1].1.weight)
  }

  /** The weight of a category, 1.0 for a category the guidelines do not name. */
  function WeightFor(weights: seq<(string, CategoryWeight)>, c: string): (w: real)
    ensures w >= 0.0
  {
    if weights == [] then 1.0
    else if weights[0].0 == c then weights[0].1
    else WeightFor(weights[1..], c)
  }

  /** `category_weights.get(category, 1.0)`: the first weight recorded for
      the category, and 1.0 when there is none. */
  lemma {:induction false} WeightForGet(weights: seq<(string, CategoryWeight)>, c: string)
    ensures WeightFor(weights, c) == if HasKey(weights, c) then Get(weights, c).value else 1.0
  {
    if weights != [] {
      WeightForGet(weights[1..], c);
      assert Keys(weights) == [weights[0].0] + Keys(weights[1..]);
      if weights[0].0 != c && HasKey(weights, c) {
        var i := IndexOf(weights, c);
        IndexOfAt(weights[1..], c, i - 1);
      }
    }
  }

  function OverallSum(scores: seq<(string, real)>, weights: seq<(string, CategoryWeight)>): real {
    if scores == [] then 0.0
    else
      var last := scores[|scores| - 1];
      OverallSum(scores[..|scores| - 1], weights) + last.1 * WeightFor(weights, last.0)
  }

  function OverallWeight(scores: seq<(string, real)>, weights: seq<(string, CategoryWeight)>): (w: real)
    ensures w >= 0.0
  {
    if scores == [] then 0.0
    else OverallWeight(scores[..|scores| - 1], weights) + WeightFor(weights, scores[|scores| - 1].0)
  }

  function Overall(scores: seq<(string, real)>, weights: seq<(string, CategoryWeight)>): real {
    var w := OverallWeight(scores, weights);
    if w > 0.0 then OverallSum(scores, weights) / w else 0.0
  }

  /** `_calculate_scores`: the overall score and the category scores. */
  function Scores(results: seq<MetricResult>, g: Guidelines): (real, seq<(string, real)>) {
    var cs := CategoryScores(results);
    (Overall(cs, WeightsOf(g.categories)), cs)
  }

  // ---------------------------------------------------------------------
  // Properties of the aggregation

  /** `sum` is a weighted sum of values in [lo, hi] with weights summing to `total`. */
  predicate Between(lo: real, hi: real, sum: real, total: real) {
    lo * total <= sum <= hi * total
  }

  /** One step of a bounded weighted sum, as plain arithmetic. */
  lemma StepBounds(lo: real, hi: real, s: real, w: real, sum: real, total: real)
    requires Between(lo, hi, sum, total)
    requires lo <= s <= hi && w >= 0.0
    ensures Between(lo, hi, sum + s * w, total + w)
  {
    assert lo * w <= s * w <= hi * w;
    assert lo * (total + w) == lo * total + lo * w;
    assert hi * (total + w) == hi * total + hi * w;
  }

  lemma {:induction false} WeightedSumBounds(rs: seq<MetricResult>, lo: real, hi: real)
    requires forall k :: 0 <= k < |rs| ==> lo <= rs[k].score as real <= hi
    ensures Between(lo, hi, WeightedSum(rs), TotalWeight(rs))
  {
    if rs == [] {
      assert Between(lo, hi, 0.0, 0.0);
    } else {
      var init := rs[..|rs| - 1];
      var last := rs[|rs| - 1];
      assert forall k :: 0 <= k < |init| ==> init[k] == rs[k];
      WeightedSumBounds(init, lo, hi);
      StepBounds(lo, hi, last.score as real, last.metric.weight, WeightedSum(init), TotalWeight(init));
    }
  }

  lemma DivisionBounds(sum: real, total: real, lo: real, hi: real)
    requires total > 0.0 && Between(lo, hi, sum, total)
    ensures lo <= sum / total <= hi
  {
  }

  /** A category score lies between the smallest and the largest score of
      the category's results. */
  lemma MeanBounds(rs: seq<MetricResult>, lo: real, hi: real)
    requires TotalWeight(rs) > 0.0
    requires forall k :: 0 <= k < |rs| ==> lo <= rs[k].score as real <= hi
    ensures lo <= Mean(rs) <= hi
  {
    WeightedSumBounds(rs, lo, hi);
    DivisionBounds(WeightedSum(rs), TotalWeight(rs), lo, hi);
  }

  /** Every category score lies in [1, 5]. */
  lemma {:induction false} ScoresOfRange(groups: seq<(string, seq<MetricResult>)>)
    ensures forall i :: 0 <= i < |ScoresOf(groups)| ==> 1.0 <= ScoresOf(groups)[i].1 <= 5.0
  {
    if groups != [] {
      var init := groups[..|groups| - 1];
      ScoresOfRange(init);
      var (c, rs) := groups[|groups| - 1];
      if Scored(rs) {
        MeanBounds(rs, 1.0, 5.0);
      }
    }
  }

  /** Looking a category up in the scores of distinct-keyed groups: the mean
      of that group when it is scored, nothing otherwise. */
  lemma {:induction false} ScoresOfGet(groups: seq<(string, seq<MetricResult>)>, c: string)
    requires UniqueKeys(groups)
    ensures Get(ScoresOf(groups), c) ==
      if HasKey(groups, c) && Scored(Get(groups, c).value) then Some(Mean(Get(groups, c).value)) else None
  {
    if groups != [] {
      var init := groups[..|groups| - 1];
      var (k, rs) := groups[|groups| - 1];
      assert UniqueKeys(init) by {
        forall i, j | 0 <= i < j < |init| ensures init[i].0 != init[j].0 {
          assert init[i] == groups[i] && init[j] == groups[j];
        }
      }
      ScoresOfGet(init, c);
      assert !HasKey(init, k) by {
        forall i | 0 <= i < |init| ensures init[i].0 != k {
          assert init[i] == groups[i];
        }
      }
      assert groups == Put(init, k, rs);
      GetPut(init, k, rs, c);
      if Scored(rs) {
        GetPut(ScoresOf(init), k, Mean(rs), c);
      }
    }
  }

  /** A category's score is the weight-normalised mean of exactly its own
      results, and a category without results, or whose results weigh
      nothing, has no score. */
  lemma CategoryScoreIs(results: seq<MetricResult>, c: string)
    ensures Get(CategoryScores(results), c) ==
      if Scored(InCategory(results, c)) then Some(Mean(InCategory(results, c))) else None
  {
    GroupByCategoryCorrect(results, c);
    ScoresOfGet(GroupByCategory(results), c);
    InCategoryEmpty(results, c);
  }

  /** One step of a weighted sum of values in [1, 5], as plain arithmetic. */
  lemma StepBetweenOneAndFive(s: real, w: real, sum: real, total: real)
    requires total <= sum <= 5.0 * total
    requires 1.0 <= s <= 5.0 && w >= 0.0
    ensures total + w <= sum + s * w <= 5.0 * (total + w)
  {
    assert w <= s * w <= 5.0 * w;
  }

  lemma {:induction false} OverallSumBounds(scores: seq<(string, real)>, weights: seq<(string, CategoryWeight)>)
    requires forall i :: 0 <= i < |scores| ==> 1.0 <= scores[i].1 <= 5.0
    ensures OverallWeight(scores, weights) <= OverallSum(scores, weights) <= 5.0 * OverallWeight(scores, weights)
  {
    if scores != [] {
      var init := scores[..|scores| - 1];
      var last := scores[|scores| - 1];
      OverallSumBounds(init, weights);
      StepBetweenOneAndFive(last.1, WeightFor(weights, last.0), OverallSum(init, weights), OverallWeight(init, weights));
    }
  }

  /** The overall score is 0.0 exactly when the scored categories weigh
      nothing, and lies in [1, 5] otherwise. */
  lemma OverallRange(results: seq<MetricResult>, g: Guidelines)
    ensures var (overall, cs) := Scores(results, g);
      && (overall == 0.0 <==> OverallWeight(cs, WeightsOf(g.categories)) == 0.0)
      && (overall != 0.0 ==> 1.0 <= overall <= 5.0)
  {
    var cs := CategoryScores(results);
    var ws := WeightsOf(g.categories);
    ScoresOfRange(GroupByCategory(results));
    OverallSumBounds(cs, ws);
    if OverallWeight(cs, ws) > 0.0 {
      DivisionBounds(OverallSum(cs, ws), OverallWeight(cs, ws), 1.0, 5.0);
    }
  }

  /** No results: overall 0.0 and no category scores. */
  lemma ScoresOfNothing(g: Guidelines)
    ensures Scores([], g) == (0.0, [])
  {
  }

  /** The grouping step of the worked example below. */
  lemma WorkedGroups(a: string, b: string, r1: MetricResult, r2: MetricResult, r3: MetricResult)
    requires a != b
    requires r1.metric.category == a && r2.metric.category == a && r3.metric.category == b
    ensures GroupByCategory([r1, r2, r3]) == [(a, [r1, r2]), (b, [r3])]
  {
    var g0: seq<(string, seq<MetricResult>)> := [];
    assert GroupByCategory([r1]) == AddToGroup(g0, r1) by {
      assert [r1][..0] == [];
    }
    assert AddToGroup(g0, r1) == [(a, [r1])] by {
      assert !HasKey(g0, a);
      assert [] + [r1] == [r1];
    }
    var g1: seq<(string, seq<MetricResult>)> := [(a, [r1])];
    assert GroupByCategory([r1, r2]) == AddToGroup(g1, r2) by {
      assert [r1, r2][..1] == [r1];
    }
    assert AddToGroup(g1, r2) == [(a, [r1, r2])] by {
      IndexOfAt(g1, a, 0);
      assert [r1] + [r2] == [r1, r2];
    }
    var g2: seq<(string, seq<MetricResult>)> := [(a, [r1, r2])];
    assert GroupByCategory([r1, r2, r3]) == AddToGroup(g2, r3) by {
      assert [r1, r2, r3][..2] == [r1, r2];
    }
    assert AddToGroup(g2, r3) == [(a, [r1, r2]), (b, [r3])] by {
      assert Keys(g2) == [a];
      assert !HasKey(g2, b);
      assert [] + [r3] == [r3];
    }
  }

  /** The category scores of the worked example below. */
  lemma WorkedCategoryScores(a: string, b: string, r1: MetricResult, r2: MetricResult, r3: MetricResult)
    requires a != b
    requires r1.metric.category == a && r1.metric.weight == 0.6 && r1.score == 4
    requires r2.metric.category == a && r2.metric.weight == 0.4 && r2.score == 3
    requires r3.metric.category == b && r3.metric.weight == 1.0 && r3.score == 5
    ensures CategoryScores([r1, r2, r3]) == [(a, 3.6), (b, 5.0)]
  {
    WorkedGroups(a, b, r1, r2, r3);
    var groups := [(a, [r1, r2]), (b, [r3])];
    assert [r1, r2][..1] == [r1] && [r1][..0] == [] && [r3][..0] == [];
    assert WeightedSum([r1]) == 2.4 && TotalWeight([r1]) == 0.6;
    assert WeightedSum([r1, r2]) == 3.6 && TotalWeight([r1, r2]) == 1.0;
    assert WeightedSum([r3]) == 5.0 && TotalWeight([r3]) == 1.0;
    var first := groups[..1];
    assert first == [(a, [r1, r2])] && first[..0] == [];
    assert ScoresOf(first) == [(a, 3.6)];
    var acc: seq<(string, real)> := [(a, 3.6)];
    assert Keys(acc) == [a] && !HasKey(acc, b);
    assert ScoresOf(groups) == Put(acc, b, 5.0);
  }

  /** The category weights of the worked example below. */
  lemma WorkedWeights(a: string, b: string, g: Guidelines)
    requires a != b
    requires |g.categories| == 2 && g.categories[0].0 == a && g.categories[1].0 == b
    requires g.categories[0].1.weight == 1.0 && g.categories[1].1.weight == 1.5
    ensures WeightsOf(g.categories) == [(a, 1.0), (b, 1.5)]
  {
    assert g.categories[..1][..0] == [];
    var w0: seq<(string, CategoryWeight)> := [];
    assert WeightsOf(g.categories[..1]) == Put(w0, a, 1.0) == [(a, 1.0)];
    var w1: seq<(string, CategoryWeight)> := [(a, 1.0)];
    assert Keys(w1) == [a] && !HasKey(w1, b);
    assert WeightsOf(g.categories) == Put(w1, b, 1.5);
  }

  /** The overall score of the worked example below. */
  lemma WorkedOverall(a: string, b: string)
    requires a != b
    ensures Overall([(a, 3.6), (b, 5.0)], [(a, 1.0), (b, 1.5)]) == 4.44
  {
    var cs: seq<(string, real)> := [(a, 3.6), (b, 5.0)];
    var ws: seq<(string, CategoryWeight)> := [(a, 1.0), (b, 1.5)];
    assert ws[1..] == [(b, 1.5)];
    assert WeightFor(ws, a) == 1.0;
    assert WeightFor(ws, b) == 1.5;
    assert cs[..1] == [(a, 3.6)];
    var c0: seq<(string, real)> := [];
    assert cs[..1][..0] == c0;
    assert OverallSum(cs[..1], ws) == 3.6 && OverallWeight(cs[..1], ws) == 1.0;
    assert OverallSum(cs, ws) == 11.1 && OverallWeight(cs, ws) == 2.5;
  }

  /** The worked example of the agent's tests: two clarity metrics weighing
      0.6 and 0.4 scored 4 and 3, one accuracy metric weighing 1.0 scored 5,
      category weights 1.0 and 1.5: clarity 3.6, accuracy 5.0, overall 4.44. */
  lemma WorkedExample(a: string, b: string, r1: MetricResult, r2: MetricResult, r3: MetricResult, g: Guidelines)
    requires a != b
    requires r1.metric.category == a && r1.metric.weight == 0.6 && r1.score == 4
    requires r2.metric.category == a && r2.metric.weight == 0.4 && r2.score == 3
    requires r3.metric.category == b && r3.metric.weight == 1.0 && r3.score == 5
    requires |g.categories| == 2 && g.categories[0].0 == a && g.categories[1].0 == b
    requires g.categories[0].1.weight == 1.0 && g.categories[1].1.weight == 1.5
    ensures Scores([r1, r2, r3], g) == (4.44, [(a, 3.6), (b, 5.0)])
  {
    WorkedCategoryScores(a, b, r1, r2, r3);
    WorkedWeights(a, b, g);
    WorkedOverall(a, b);
  }

  // ---------------------------------------------------------------------
  // Gathering the outcomes

  /** The dispatch step for one metric: a result, or the exception it raised. */
  type Outcome = Result<MetricResult, EvalError>

  /** The text of an exception: the troubleshooting form for client errors. */
  function ErrorMessage(e: EvalError): string {
    match e
    case LlmError(x) => ErrorText(x)
    case ValueError(m) => m
  }

  function AllFailed(e: EvalError): string {
    "All metric evaluations failed: " + ErrorMessage(e)
  }

  /** The successful results, in dispatch order. */
  function Successes(os: seq<Outcome>): (r: seq<MetricResult>)
    ensures |r| <= |os|
  {
    if os == [] then []
    else Successes(os[..|os| - 1]) + (match os[|os| - 1] case Ok(v) => [v] case Err(_) => [])
  }

  /** The first exception raised, in dispatch order. */
  function FirstFailure(os: seq<Outcome>): (r: Option<EvalError>)
    ensures r.None? <==> forall k :: 0 <= k < |os| ==> os[k].Ok?
    ensures r.Some? ==> exists k :: 0 <= k < |os| && os[k] == Err(r.value) && forall j :: 0 <= j < k ==> os[j].Ok?
  {
    if os == [] then None
    else if os[0].Err? then Some(os[0].error)
    else
      var rest := FirstFailure(os[1..]);
      assert forall k :: 1 <= k < |os| ==> os[k] == os[1..][k - 1];
      rest
  }

  /** The gathering rule: the successful results when there is at least one
      of them, or when nothing failed; "All metric evaluations failed"
      otherwise. */
  function Gather(os: seq<Outcome>): (r: Result<seq<MetricResult>, string>)
    ensures r.Err? <==> FirstFailure(os).Some? && Successes(os) == []
  {
    match FirstFailure(os)
    case None => Ok(Successes(os))
    case Some(e) => if Successes(os) != [] then Ok(Successes(os)) else Err(AllFailed(e))
  }

  /** The recovery as the agent writes it: the tasks it scans are never the
      coroutine objects it dispatched, so the first exception always fails
      the whole evaluation. */
  function GatherAsWritten(os: seq<Outcome>): (r: Result<seq<MetricResult>, string>)
    ensures r.Err? <==> FirstFailure(os).Some?
  {
    match FirstFailure(os)
    case None => Ok(Successes(os))
    case Some(e) => Err(AllFailed(e))
  }

  lemma {:induction false} SuccessesAllOk(os: seq<Outcome>)
    requires forall k :: 0 <= k < |os| ==> os[k].Ok?
    ensures |Successes(os)| == |os|
    ensures forall k :: 0 <= k < |os| ==> Successes(os)[k] == os[k].value
  {
    if os != [] {
      SuccessesAllOk(os[..|os| - 1]);
    }
  }

  lemma {:induction false} SuccessesAppend(a: seq<Outcome>, b: seq<Outcome>)
    ensures Successes(a + b) == Successes(a) + Successes(b)
  {
    if b == [] {
      assert a + b == a;
    } else {
      assert (a + b)[..|a + b| - 1] == a + b[..|b| - 1];
      SuccessesAppend(a, b[..|b| - 1]);
    }
  }

  /** A result is among the successes iff some dispatched metric produced it. */
  lemma {:induction false} SuccessesMember(os: seq<Outcome>, v: MetricResult)
    ensures v in Successes(os) <==> Ok(v) in os
  {
    if os != [] {
      SuccessesMember(os[..|os| - 1], v);
      assert os == os[..|os| - 1] + [os[|os| - 1]];
    }
  }

  /** With every evaluation successful, all results come back in dispatch order. */
  lemma GatherAllSucceed(os: seq<Outcome>)
    requires forall k :: 0 <= k < |os| ==> os[k].Ok?
    ensures Gather(os).Ok? && |Gather(os).value| == |os|
    ensures forall k :: 0 <= k < |os| ==> Gather(os).value[k] == os[k].value
  {
    SuccessesAllOk(os);
  }

  /** A partial failure keeps exactly the successful results. */
  lemma PartialFailureKeepsSuccesses(os: seq<Outcome>, v: MetricResult)
    requires Ok(v) in os
    ensures Gather(os).Ok?
    ensures forall w :: w in Gather(os).value <==> Ok(w) in os
  {
    SuccessesMember(os, v);
    forall w ensures w in Successes(os) <==> Ok(w) in os {
      SuccessesMember(os, w);
    }
  }

  /** The outcomes of one failing and two successful evaluations. */
  function PartialOutcomes(a: MetricResult, b: MetricResult, e: EvalError): seq<Outcome> {
    [Err(e), Ok(a), Ok(b)]
  }

  /** The discrepancy: one failure among three evaluations fails the whole
      evaluation as written, while the intended rule keeps the two results. */
  lemma PartialFailureAsWritten(a: MetricResult, b: MetricResult, e: EvalError)
    ensures GatherAsWritten(PartialOutcomes(a, b, e)) == Err(AllFailed(e))
    ensures Gather(PartialOutcomes(a, b, e)) == Ok([a, b])
  {
    var os := PartialOutcomes(a, b, e);
    assert os[..2][..1] == os[..1] == [Err(e)];
    assert os[..1][..0] == [];
    assert Successes(os[..1]) == [];
    assert Successes(os[..2]) == [a];
    assert Successes(os) == [a, b];
  }

  // ---------------------------------------------------------------------
  // Filtering

  /** `[m for m in metrics if m.name in names]`. */
  function FilterByNames(ms: seq<Metric>, names: seq<string>): (r: seq<Metric>)
    ensures |r| <= |ms|
    ensures forall m :: m in r <==> m in ms && m.name in names
  {
    if ms == [] then []
    else
      var rest := FilterByNames(ms[..|ms| - 1], names);
      assert ms == ms[..|ms| - 1] + [ms[|ms| - 1]];
      if ms[|ms| - 1].name in names then rest + [ms[|ms| - 1]] else rest
  }

  /** The filter keeps the expansion order: filtering distributes over concatenation. */
  lemma {:induction false} FilterByNamesAppend(a: seq<Metric>, b: seq<Metric>, names: seq<string>)
    ensures FilterByNames(a + b, names) == FilterByNames(a, names) + FilterByNames(b, names)
  {
    if b == [] {
      assert a + b == a;
    } else {
      assert (a + b)[..|a + b| - 1] == a + b[..|b| - 1];
      FilterByNamesAppend(a, b[..|b| - 1], names);
    }
  }

  /** A missing or empty filter keeps every metric. */
  function SelectMetrics(ms: seq<Metric>, filter: Option<seq<string>>): (r: seq<Metric>)
    ensures (filter.None? || filter.value == []) ==> r == ms
  {
    match filter
    case None => ms
    case Some(names) => if names == [] then ms else FilterByNames(ms, names)
  }

  /** Python's `repr` of a list of strings (strings without quotes inside). */
  function PyListRepr(names: seq<string>): string {
    "[" + Join(", ", QuoteAll(names)) + "]"
  }

  function QuoteAll(names: seq<string>): (r: seq<string>)
    ensures |r| == |names|
  {
    if names == [] then [] else QuoteAll(names[..|names| - 1]) + ["'" + names[|names| - 1] + "'"]
  }

  function NoneFound(names: seq<string>): string {
    "None of the specified metrics " + PyListRepr(names) + " found in guidelines"
  }

  /** The checks made before dispatch, in order: the metrics to dispatch or
      the message of the ValueError raised. */
  function PreDispatch(content: string, g: Guidelines, filter: Option<seq<string>>): (r: Result<seq<Metric>, string>)
    ensures IsBlank(content) ==> r == Err("Content cannot be empty")
    ensures !IsBlank(content) && Expand(g.categories) == [] ==> r == Err("No metrics found in guidelines")
    ensures (!IsBlank(content) && Expand(g.categories) != [] && filter.Some? && filter.value != []
             && FilterByNames(Expand(g.categories), filter.value) == []) ==> r == Err(NoneFound(filter.value))
    ensures r.Ok? ==> r.value != [] && r.value == SelectMetrics(Expand(g.categories), filter)
    ensures r.Ok? <==> !IsBlank(content) && SelectMetrics(Expand(g.categories), filter) != []
  {
    var all := Expand(g.categories);
    if IsBlank(content) then Err("Content cannot be empty")
    else if all == [] then Err("No metrics found in guidelines")
    else
      var selected := SelectMetrics(all, filter);
      if selected == [] then Err(NoneFound(filter.value)) else Ok(selected)
  }

  /** The evaluation of each metric, in order. */
  function Outcomes(content: string, ms: seq<Metric>, evaluate: (string, Metric) -> Outcome): (os: seq<Outcome>)
    ensures |os| == |ms|
    ensures forall k :: 0 <= k < |ms| ==> os[k] == evaluate(content, ms[k])
  {
    seq(|ms|, k requires 0 <= k < |ms| => evaluate(content, ms[k]))
  }

  function Metadata(evaluated: nat, requested: nat, evaluationTime: string): seq<(string, MetaValue)> {
    [("metrics_evaluated", MetaInt(evaluated)), ("metrics_requested", MetaInt(requested)),
     ("evaluation_time", MetaText(evaluationTime))]
  }

  // ---------------------------------------------------------------------
  // The agent

  const AgentsDefaultConcurrency: nat := 3
  const CoreDefaultConcurrency: nat := 14

  class CoordinatorAgent {
    const client: ClientKind
    const maxConcurrentEvaluations: nat
    const promptTemplate: Option<PromptTemplate>

    /** The agent with an explicit concurrency bound. */
    constructor (client: ClientKind, maxConcurrentEvaluations: nat, promptTemplate: Option<PromptTemplate>)
      ensures this.client == client && this.maxConcurrentEvaluations == maxConcurrentEvaluations
      ensures this.promptTemplate == promptTemplate
    {
      this.client := client;
      this.maxConcurrentEvaluations := maxConcurrentEvaluations;
      this.promptTemplate := promptTemplate;
    }

    /** The agent of the top-level package, with its default bound of 3. */
    constructor AgentsDefault(client: ClientKind)
      ensures this.client == client && maxConcurrentEvaluations == AgentsDefaultConcurrency
      ensures promptTemplate.None?
    {
      this.client := client;
      maxConcurrentEvaluations := AgentsDefaultConcurrency;
      promptTemplate := None;
    }

    /** The agent of the core package, with its default bound of 14. */
    constructor CoreDefault(client: ClientKind)
      ensures this.client == client && maxConcurrentEvaluations == CoreDefaultConcurrency
      ensures promptTemplate.None?
    {
      this.client := client;
      maxConcurrentEvaluations := CoreDefaultConcurrency;
      promptTemplate := None;
    }

    /** `_calculate_scores`: the results grouped by category, the category
        weights read from the guidelines, a score per scored category and
        the weighted overall score. */
    method CalculateScores(results: seq<MetricResult>, g: Guidelines)
      returns (overall: real, categoryScores: seq<(string, real)>)
      ensures (overall, categoryScores) == Scores(results, g)
    {
      var byCategory := GroupResults(results);
      var weights := ReadWeights(g);
      categoryScores := ScoreCategories(byCategory);
      overall := CombineScores(categoryScores, weights);
    }

    /** The grouping loop of `_calculate_scores`. */
    method GroupResults(results: seq<MetricResult>) returns (byCategory: seq<(string, seq<MetricResult>)>)
      ensures byCategory == GroupByCategory(results)
    {
      byCategory := [];
      var i := 0;
      while i < |results|
        invariant 0 <= i <= |results|
        invariant byCategory == GroupByCategory(results[..i])
      {
        assert results[..i + 1][..i] == results[..i];
        var category := results[i].metric.category;
        var existing := if HasKey(byCategory, category) then Get(byCategory, category).value else [];
        byCategory := Put(byCategory, category, existing + [results[i]]);
        i := i + 1;
      }
      assert results[..i] == results;
    }

    /** The loop of `_calculate_scores` reading the category weights. */
    method ReadWeights(g: Guidelines) returns (weights: seq<(string, CategoryWeight)>)
      ensures weights == WeightsOf(g.categories)
    {
      weights := [];
      var i := 0;
      while i < |g.categories|
        invariant 0 <= i <= |g.categories|
        invariant weights == WeightsOf(g.categories[..i])
      {
        assert g.categories[..i + 1][..i] == g.categories[..i];
        weights := Put(weights, g.categories[i].0, g.categories[i].1.weight);
        i := i + 1;
      }
      assert g.categories[..i] == g.categories;
    }

    /** The running sums over one category's results. */
    method SumCategory(rs: seq<MetricResult>) returns (categoryScore: real, totalWeight: real)
      ensures categoryScore == WeightedSum(rs) && totalWeight == TotalWeight(rs)
    {
      categoryScore := 0.0;
      totalWeight := 0.0;
      var j := 0;
      while j < |rs|
        invariant 0 <= j <= |rs|
        invariant categoryScore == WeightedSum(rs[..j]) && totalWeight == TotalWeight(rs[..j])
      {
        assert rs[..j + 1][..j] == rs[..j];
        categoryScore := categoryScore + (rs[j].score as real) * rs[j].metric.weight;
        totalWeight := totalWeight + rs[j].metric.weight;
        j := j + 1;
      }
      assert rs[..j] == rs;
    }

    /** The loop of `_calculate_scores` scoring each category. */
    method ScoreCategories(byCategory: seq<(string, seq<MetricResult>)>) returns (categoryScores: seq<(string, real)>)
      ensures categoryScores == ScoresOf(byCategory)
    {
      categoryScores := [];
      var i := 0;
      while i < |byCategory|
        invariant 0 <= i <= |byCategory|
        invariant categoryScores == ScoresOf(byCategory[..i])
      {
        assert byCategory[..i + 1][..i] == byCategory[..i];
        var (category, rs) := byCategory[i];
        if rs != [] {
          var categoryScore, totalWeight := SumCategory(rs);
          if totalWeight > 0.0 {
            categoryScores := Put(categoryScores, category, categoryScore / totalWeight);
          }
        }
        i := i + 1;
      }
      assert byCategory[..i] == byCategory;
    }

    /** The loop of `_calculate_scores` combining the category scores. */
    method CombineScores(categoryScores: seq<(string, real)>, weights: seq<(string, CategoryWeight)>)
      returns (overall: real)
      ensures overall == Overall(categoryScores, weights)
    {
      overall := 0.0;
      var totalWeight := 0.0;
      var i := 0;
      while i < |categoryScores|
        invariant 0 <= i <= |categoryScores|
        invariant overall == OverallSum(categoryScores[..i], weights)
        invariant totalWeight == OverallWeight(categoryScores[..i], weights)
      {
        assert categoryScores[..i + 1][..i] == categoryScores[..i];
        var (category, score) := categoryScores[i];
        var weight := WeightFor(weights, category);
        overall := overall + score * weight;
        totalWeight := totalWeight + weight;
        i := i + 1;
      }
      assert categoryScores[..i] == categoryScores;
      if totalWeight > 0.0 {
        overall := overall / totalWeight;
      } else {
        overall := 0.0;
      }
    }

    /** The evaluation tasks, one per metric in order, awaited in turn. */
    method Dispatch(content: string, metrics: seq<Metric>, evaluate: (string, Metric) -> Outcome)
      returns (outcomes: seq<Outcome>, dispatched: seq<Metric>)
      ensures outcomes == Outcomes(content, metrics, evaluate)
      ensures dispatched == metrics
    {
      outcomes, dispatched := [], [];
      var i := 0;
      while i < |metrics|
        invariant 0 <= i <= |metrics|
        invariant dispatched == metrics[..i]
        invariant outcomes == Outcomes(content, metrics[..i], evaluate)
      {
        outcomes := outcomes + [evaluate(content, metrics[i])];
        dispatched := dispatched + [metrics[i]];
        i := i + 1;
      }
      assert metrics[..i] == metrics;
    }

    /** `evaluate_content`: the pre-dispatch checks, one evaluation per
        selected metric, the gathering rule, the scores and the result. The
        clock readings and the content hash are parameters. */
    method EvaluateContent(content: string, g: Guidelines, filter: Option<seq<string>>,
                           evaluate: (string, Metric) -> Outcome, md5: string -> string,
                           timestamp: DateTime, evaluationTime: string)
      returns (r: Result<EvaluationResult, string>, dispatched: seq<Metric>)
      ensures PreDispatch(content, g, filter).Err? ==>
        r == Err(PreDispatch(content, g, filter).error) && dispatched == []
      ensures PreDispatch(content, g, filter).Ok? ==>
        var ms := PreDispatch(content, g, filter).value;
        var gathered := Gather(Outcomes(content, ms, evaluate));
        && dispatched == ms
        && (gathered.Err? ==> r == Err(gathered.error))
        && (gathered.Ok? ==>
              var (overall, cs) := Scores(gathered.value, g);
              r == NewEvaluationResult(md5(content), timestamp, overall, cs, gathered.value,
                                       Metadata(|gathered.value|, |ms|, evaluationTime)))
    {
      dispatched := [];
      if IsBlank(content) {
        return Err("Content cannot be empty"), [];
      }
      var metrics := ToMetricsList(g);
      if metrics == [] {
        return Err("No metrics found in guidelines"), [];
      }
      if filter.Some? && filter.value != [] {
        metrics := FilterByNames(metrics, filter.value);
        if metrics == [] {
          return Err(NoneFound(filter.value)), [];
        }
      }
      var contentHash := md5(content);
      var outcomes;
      outcomes, dispatched := Dispatch(content, metrics, evaluate);
      var gathered := Gather(outcomes);
      if gathered.Err? {
        return Err(gathered.error), dispatched;
      }
      var metricResults := gathered.value;
      var overall, categoryScores := CalculateScores(metricResults, g);
      r := NewEvaluationResult(contentHash, timestamp, overall, categoryScores, metricResults,
                               Metadata(|metricResults|, |metrics|, evaluationTime));
    }
  }

  // ---------------------------------------------------------------------
  // Properties of the evaluation as a whole

  /** The overall score is rejected by the result model exactly when the
      scored categories weigh nothing. */
  lemma OverallRejectedIffWeightless(results: seq<MetricResult>, g: Guidelines)
    ensures var (overall, cs) := Scores(results, g);
      !(1.0 <= overall <= 5.0) <==> OverallWeight(cs, WeightsOf(g.categories)) == 0.0
  {
    OverallRange(results, g);
  }
}
