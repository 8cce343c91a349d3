/** The guideline model of core/storage/guidelines.py: categories of weighted
    metrics, the weight validation and the flattening into `Metric`s. Python
    dictionaries are sequences of pairs in insertion order. */
module GuidelinesStore {
  import opened Wrappers
  import opened Models
  import opened Assoc

  type CategoryWeight = r: real | 0.0 <= r

  datatype GuidelineMetric = GuidelineMetric(description: string, weight: Weight)

  datatype GuidelineCategory = GuidelineCategory(
    weight: CategoryWeight,
    description: string,
    metrics: seq<(string, GuidelineMetric)>)

  datatype Guidelines = Guidelines(categories: seq<(string, GuidelineCategory)>)

  /** Dictionary keys are distinct at both levels. */
  predicate WellFormed(g: Guidelines) {
    UniqueKeys(g.categories)
    && forall i :: 0 <= i < |g.categories| ==> UniqueKeys(g.categories[i].1.metrics)
  }

  /** `GuidelineMetric(...)`: the weight must lie in [0, 1]. */
  function NewGuidelineMetric(description: string, weight: real): (r: Result<GuidelineMetric, string>)
    ensures r.Ok? <==> 0.0 <= weight <= 1.0
    ensures r.Ok? ==> r.value.description == description && r.value.weight == weight
  {
    if 0.0 <= weight <= 1.0 then Ok(GuidelineMetric(description, weight))
    else Err("validation error: weight")
  }

  /** `GuidelineCategory(...)`: the weight must be non-negative. */
  function NewGuidelineCategory(weight: real, description: string, metrics: seq<(string, GuidelineMetric)>)
    : (r: Result<GuidelineCategory, string>)
    ensures r.Ok? <==> 0.0 <= weight
    ensures r.Ok? ==> r.value == GuidelineCategory(weight, description, metrics)
  {
    if 0.0 <= weight then Ok(GuidelineCategory(weight, description, metrics))
    else Err("validation error: weight")
  }

  /** The sum of the metric weights of one category. */
  function WeightSum(ms: seq<(string, GuidelineMetric)>): real {
    if ms == [] then 0.0 else ms[0].1.weight + WeightSum(ms[1..])
  }

  /** `validate_metric_weights`: the weights sum to 1 within 0.01. */
  predicate ValidateMetricWeights(c: GuidelineCategory) {
    -0.01 < WeightSum(c.metrics) - 1.0 < 0.01
  }

  lemma {:induction false} WeightSumAppend(a: seq<(string, GuidelineMetric)>, b: seq<(string, GuidelineMetric)>)
    ensures WeightSum(a + b) == WeightSum(a) + WeightSum(b)
  {
    if a != [] {
      assert (a + b)[1..] == a[1..] + b;
      WeightSumAppend(a[1..], b);
    } else {
      assert a + b == b;
    }
  }

  /** Removing one entry removes it from the multiset. */
  lemma MultisetRemove(b: seq<(string, GuidelineMetric)>, i: nat)
    requires i < |b|
    ensures multiset(b[..i] + b[i + 1..]) == multiset(b) - multiset{b[i]}
  {
    assert b == b[..i] + [b[i]] + b[i + 1..];
    assert multiset(b) == multiset(b[..i]) + multiset{b[i]} + multiset(b[i + 1..]);
  }

  /** Removing one entry removes its weight from the sum. */
  lemma WeightSumRemove(b: seq<(string, GuidelineMetric)>, i: nat)
    requires i < |b|
    ensures WeightSum(b) == b[i].1.weight + WeightSum(b[..i] + b[i + 1..])
  {
    var pre, x, post := b[..i], b[i], b[i + 1..];
    assert b == (pre + [x]) + post;
    WeightSumAppend(pre + [x], post);
    WeightSumAppend(pre, [x]);
    WeightSumAppend(pre, post);
    var e: seq<(string, GuidelineMetric)> := [];
    assert [x][1..] == e;
    assert WeightSum([x]) == x.1.weight;
  }

  /** The sum, and hence the verdict, does not depend on the order of the
      metrics in the dictionary. */
  lemma {:induction false} WeightSumPermutation(a: seq<(string, GuidelineMetric)>, b: seq<(string, GuidelineMetric)>)
    requires multiset(a) == multiset(b)
    ensures WeightSum(a) == WeightSum(b)
    decreases |a|
  {
    if a != [] {
      assert a[0] in multiset(b);
      var i :| 0 <= i < |b| && b[i] == a[0];
      var rest := b[..i] + b[i + 1..];
      assert a == [a[0]] + a[1..];
      assert multiset(a[1..]) == multiset(a) - multiset{a[0]};
      MultisetRemove(b, i);
      WeightSumPermutation(a[1..], rest);
      WeightSumRemove(b, i);
    } else {
      assert |b| == |multiset(b)| == 0;
    }
  }

  lemma ValidateMetricWeightsPermutation(c: GuidelineCategory, d: GuidelineCategory)
    requires multiset(c.metrics) == multiset(d.metrics)
    ensures ValidateMetricWeights(c) <==> ValidateMetricWeights(d)
  {
    WeightSumPermutation(c.metrics, d.metrics);
  }

  /** Weights 0.3 and 0.8 sum to 1.1, which the validation rejects. */
  lemma OverweightCategoryRejected()
    ensures !ValidateMetricWeights(GuidelineCategory(1.0, "", [("a", GuidelineMetric("", 0.3)),
                                                             ("b", GuidelineMetric("", 0.8))]))
  {
    var ms := [("a", GuidelineMetric("", 0.3)), ("b", GuidelineMetric("", 0.8))];
    assert ms[1..][1..] == [];
  }

  function CategoryError(name: string): string {
    "Metric weights in category '" + name + "' do not sum to 1.0"
  }

  /** `validate_structure`: false without categories, an error naming the first
      category whose weights fail, and true when every category passes. */
  method ValidateStructure(g: Guidelines) returns (r: Result<bool, string>)
    ensures r == Ok(false) <==> |g.categories| == 0
    ensures r == Ok(true) <==>
      |g.categories| > 0 && forall i :: 0 <= i < |g.categories| ==> ValidateMetricWeights(g.categories[i].1)
    ensures r.Err? ==> exists i :: 0 <= i < |g.categories| && !ValidateMetricWeights(g.categories[i].1)
                                   && (forall j :: 0 <= j < i ==> ValidateMetricWeights(g.categories[j].1))
                                   && r.error == CategoryError(g.categories[i].0)
  {
    if |g.categories| == 0 {
      return Ok(false);
    }
    var i := 0;
    while i < |g.categories|
      invariant 0 <= i <= |g.categories|
      invariant forall j :: 0 <= j < i ==> ValidateMetricWeights(g.categories[j].1)
    {
      var (name, category) := g.categories[i];
      if !ValidateMetricWeights(category) {
        return Err(CategoryError(name));
      }
      i := i + 1;
    }
    return Ok(true);
  }

  function MetricOf(categoryName: string, entry: (string, GuidelineMetric)): (m: Metric)
    ensures m.name == entry.0 && m.description == entry.1.description
    ensures m.weight == entry.1.weight && m.category == categoryName
  {
    Metric(entry.0, entry.1.description, entry.1.weight, categoryName)
  }

  /** The metrics of one category, in dictionary order. */
  function CategoryMetrics(name: string, ms: seq<(string, GuidelineMetric)>): (r: seq<Metric>)
    ensures |r| == |ms|
    ensures forall j :: 0 <= j < |ms| ==> r[j] == MetricOf(name, ms[j])
  {
    seq(|ms|, j requires 0 <= j < |ms| => MetricOf(name, ms[j]))
  }

  /** The flattening: category order, then metric order within a category. */
  function Expand(cats: seq<(string, GuidelineCategory)>): seq<Metric> {
    if cats == [] then []
    else Expand(cats[..|cats| - 1]) + CategoryMetrics(cats[|cats| - 1].0, cats[|cats| - 1].1.metrics)
  }

  /** The number of metrics over all categories. */
  function MetricCount(cats: seq<(string, GuidelineCategory)>): nat {
    if cats == [] then 0 else MetricCount(cats[..|cats| - 1]) + |cats[|cats| - 1].1.metrics|
  }

  /** `to_metrics_list`. */
  method ToMetricsList(g: Guidelines) returns (metrics: seq<Metric>)
    ensures metrics == Expand(g.categories)
  {
    metrics := [];
    var i := 0;
    while i < |g.categories|
      invariant 0 <= i <= |g.categories|
      invariant metrics == Expand(g.categories[..i])
    {
      var (categoryName, category) := g.categories[i];
      var j := 0;
      ghost var before := metrics;
      while j < |category.metrics|
        invariant 0 <= j <= |category.metrics|
        invariant metrics == before + CategoryMetrics(categoryName, category.metrics[..j])
      {
        var metric := MetricOf(categoryName, category.metrics[j]);
        assert CategoryMetrics(categoryName, category.metrics[..j + 1])
            == CategoryMetrics(categoryName, category.metrics[..j]) + [metric];
        metrics := metrics + [metric];
        j := j + 1;
      }
      assert category.metrics[..j] == category.metrics;
      assert g.categories[..i + 1][..i] == g.categories[..i];
      i := i + 1;
    }
    assert g.categories[..i] == g.categories;
  }

  lemma {:induction false} ExpandLength(cats: seq<(string, GuidelineCategory)>)
    ensures |Expand(cats)| == MetricCount(cats)
  {
    if cats != [] {
      ExpandLength(cats[..|cats| - 1]);
    }
  }

  /** Metric `j` of category `i` sits at position
      `MetricCount(cats[..i]) + j` of the flattened list. */
  lemma {:induction false} ExpandIndex(cats: seq<(string, GuidelineCategory)>, i: nat, j: nat)
    requires i < |cats| && j < |cats[i].1.metrics|
    ensures MetricCount(cats[..i]) + j < |Expand(cats)|
    ensures Expand(cats)[MetricCount(cats[..i]) + j] == MetricOf(cats[i].0, cats[i].1.metrics[j])
  {
    var n := |cats| - 1;
    var init := cats[..n];
    ExpandLength(init);
    ExpandLength(cats);
    if i == n {
      assert cats[..i] == init;
    } else {
      assert init[..i] == cats[..i];
      ExpandIndex(init, i, j);
      assert MetricCount(cats) >= MetricCount(init);
    }
  }

  /** Every flattened metric comes from some metric of some category, and
      carries that category's name and its own weight and description. */
  lemma {:induction false} ExpandMember(cats: seq<(string, GuidelineCategory)>, m: Metric)
    ensures m in Expand(cats) <==>
      exists i, j :: 0 <= i < |cats| && 0 <= j < |cats[i].1.metrics| && m == MetricOf(cats[i].0, cats[i].1.metrics[j])
  {
    if cats != [] {
      var n := |cats| - 1;
      var init := cats[..n];
      ExpandMember(init, m);
      var tail := CategoryMetrics(cats[n].0, cats[n].1.metrics);
      assert Expand(cats) == Expand(init) + tail;
      if m in Expand(init) {
        var i, j :| 0 <= i < |init| && 0 <= j < |init[i].1.metrics| && m == MetricOf(init[i].0, init[i].1.metrics[j]);
        assert cats[i] == init[i];
      } else if m in tail {
        var j :| 0 <= j < |tail| && tail[j] == m;
        assert m == MetricOf(cats[n].0, cats[n].1.metrics[j]);
      }
      if exists i, j :: 0 <= i < |cats| && 0 <= j < |cats[i].1.metrics| && m == MetricOf(cats[i].0, cats[i].1.metrics[j]) {
        var i, j :| 0 <= i < |cats| && 0 <= j < |cats[i].1.metrics| && m == MetricOf(cats[i].0, cats[i].1.metrics[j]);
        if i < n {
          assert init[i] == cats[i];
        } else {
          assert tail[j] == m;
        }
      }
    }
  }

  /** The five default categories of `get_default_guidelines`. */
  function DefaultGuidelines(): Guidelines {
    Guidelines([("clarity", Clarity()), ("accuracy", Accuracy()), ("engagement", Engagement()),
                ("completeness", Completeness()), ("readability", Readability())])
  }

  const ClarityQuestion: string := "How clear and understandable is the content?"
  const ConcisenessQuestion: string := "Is the writing free of unnecessary filler words and redundancy?"
  const JargonUsageQuestion: string := "Is technical jargon properly defined or avoided when appropriate?"
  const LogicalStructureQuestion: string := "Does the content follow a logical flow with clear headings and transitions?"

  function Clarity(): GuidelineCategory {
    GuidelineCategory(1.0, ClarityQuestion, [
      ("conciseness", GuidelineMetric(ConcisenessQuestion, 0.3)),
      ("jargon_usage", GuidelineMetric(JargonUsageQuestion, 0.4)),
      ("logical_structure", GuidelineMetric(LogicalStructureQuestion, 0.3))])
  }

  const AccuracyQuestion: string := "How factually correct and well-supported is the content?"
  const DataSupportQuestion: string := "Are claims backed by credible data, sources, or evidence?"
  const FactVerificationQuestion: string := "Are there any apparent factual errors or unsupported claims?"

  function Accuracy(): GuidelineCategory {
    GuidelineCategory(1.2, AccuracyQuestion, [
      ("data_support", GuidelineMetric(DataSupportQuestion, 0.6)),
      ("fact_verification", GuidelineMetric(FactVerificationQuestion, 0.4))])
  }

  const EngagementQuestion: string := "How engaging and compelling is the content for the target audience?"
  const AudienceRelevanceQuestion: string := "Is the content relevant and valuable to the intended audience?"
  const ToneAppropriatenessQuestion: string := "Is the tone appropriate for the content type and audience?"
  const CallToActionQuestion: string := "Does the content include clear next steps or calls to action where appropriate?"

  function Engagement(): GuidelineCategory {
    GuidelineCategory(0.9, EngagementQuestion, [
      ("audience_relevance", GuidelineMetric(AudienceRelevanceQuestion, 0.4)),
      ("tone_appropriateness", GuidelineMetric(ToneAppropriatenessQuestion, 0.3)),
      ("call_to_action", GuidelineMetric(CallToActionQuestion, 0.3))])
  }

  const CompletenessQuestion: string := "How complete and comprehensive is the content coverage?"
  const TopicCoverageQuestion: string := "Are all important aspects of the topic adequately covered?"
  const DepthAnalysisQuestion: string := "Is the analysis sufficiently detailed for the intended purpose?"
  const ContextProvisionQuestion: string := "Is sufficient background context provided for understanding?"

  function Completeness(): GuidelineCategory {
    GuidelineCategory(1.1, CompletenessQuestion, [
      ("topic_coverage", GuidelineMetric(TopicCoverageQuestion, 0.5)),
      ("depth_analysis", GuidelineMetric(DepthAnalysisQuestion, 0.3)),
      ("context_provision", GuidelineMetric(ContextProvisionQuestion, 0.2))])
  }

  const ReadabilityQuestion: string := "How easy is the content to read and understand?"
  const SentenceStructureQuestion: string := "Are sentences well-constructed with appropriate length and complexity?"
  const ParagraphOrganizationQuestion: string := "Are paragraphs well-organized with clear topic sentences?"
  const FormattingConsistencyQuestion: string := "Is formatting consistent and does it enhance readability?"

  function Readability(): GuidelineCategory {
    GuidelineCategory(0.8, ReadabilityQuestion, [
      ("sentence_structure", GuidelineMetric(SentenceStructureQuestion, 0.4)),
      ("paragraph_organization", GuidelineMetric(ParagraphOrganizationQuestion, 0.3)),
      ("formatting_consistency", GuidelineMetric(FormattingConsistencyQuestion, 0.3))])
  }

  lemma {:induction false} WeightSumThree(ms: seq<(string, GuidelineMetric)>)
    requires |ms| == 3
    ensures WeightSum(ms) == ms[0].1.weight + ms[1].1.weight + ms[2].1.weight
  {
    assert ms[1..][1..][1..] == [];
    assert WeightSum(ms[1..][1..]) == ms[2].1.weight + WeightSum(ms[1..][1..][1..]);
    assert WeightSum(ms[1..]) == ms[1].1.weight + WeightSum(ms[1..][1..]);
  }

  lemma {:induction false} WeightSumTwo(ms: seq<(string, GuidelineMetric)>)
    requires |ms| == 2
    ensures WeightSum(ms) == ms[0].1.weight + ms[1].1.weight
  {
    assert ms[1..][1..] == [];
    assert WeightSum(ms[1..]) == ms[1].1.weight + WeightSum(ms[1..][1..]);
  }

  lemma ClarityValid() ensures ValidateMetricWeights(Clarity()) { WeightSumThree(Clarity().metrics); }
  lemma AccuracyValid() ensures ValidateMetricWeights(Accuracy()) { WeightSumTwo(Accuracy().metrics); }
  lemma EngagementValid() ensures ValidateMetricWeights(Engagement()) { WeightSumThree(Engagement().metrics); }
  lemma CompletenessValid() ensures ValidateMetricWeights(Completeness()) { WeightSumThree(Completeness().metrics); }
  lemma ReadabilityValid() ensures ValidateMetricWeights(Readability()) { WeightSumThree(Readability().metrics); }

  lemma DefaultCategory0Valid()
    ensures ValidateMetricWeights(DefaultGuidelines().categories[0].1)
    ensures UniqueKeys(DefaultGuidelines().categories[0].1.metrics)
  {
    ClarityValid();
    ClarityKeys();
    assert DefaultGuidelines().categories[0].1 == Clarity();
  }

  lemma DefaultCategory1Valid()
    ensures ValidateMetricWeights(DefaultGuidelines().categories[1].1)
    ensures UniqueKeys(DefaultGuidelines().categories[1].1.metrics)
  {
    AccuracyValid();
    AccuracyKeys();
    assert DefaultGuidelines().categories[1].1 == Accuracy();
  }

  lemma DefaultCategory2Valid()
    ensures ValidateMetricWeights(DefaultGuidelines().categories[2].1)
    ensures UniqueKeys(DefaultGuidelines().categories[2].1.metrics)
  {
    EngagementValid();
    EngagementKeys();
    assert DefaultGuidelines().categories[2].1 == Engagement();
  }

  lemma DefaultCategory3Valid()
    ensures ValidateMetricWeights(DefaultGuidelines().categories[3].1)
    ensures UniqueKeys(DefaultGuidelines().categories[3].1.metrics)
  {
    CompletenessValid();
    CompletenessKeys();
    assert DefaultGuidelines().categories[3].1 == Completeness();
  }

  lemma DefaultCategory4Valid()
    ensures ValidateMetricWeights(DefaultGuidelines().categories[4].1)
    ensures UniqueKeys(DefaultGuidelines().categories[4].1.metrics)
  {
    ReadabilityValid();
    ReadabilityKeys();
    assert DefaultGuidelines().categories[4].1 == Readability();
  }

  /** Every default category's weights sum to 1, so `validate_structure`
      accepts the defaults. */
  lemma DefaultCategoriesValid()
    ensures |DefaultGuidelines().categories| == 5
    ensures forall i :: 0 <= i < 5 ==> ValidateMetricWeights(DefaultGuidelines().categories[i].1)
  {
    DefaultCategory0Valid();
    DefaultCategory1Valid();
    DefaultCategory2Valid();
    DefaultCategory3Valid();
    DefaultCategory4Valid();
    var cs := DefaultGuidelines().categories;
    forall i | 0 <= i < 5 ensures ValidateMetricWeights(cs[i].1) {
      assert i == 0 || i == 1 || i == 2 || i == 3 || i == 4;
    }
  }

  lemma ThreeKeysDistinct(ms: seq<(string, GuidelineMetric)>)
    requires |ms| == 3 && ms[0].0 != ms[1].0 && ms[0].0 != ms[2].0 && ms[1].0 != ms[2].0
    ensures UniqueKeys(ms)
  {
  }

  lemma ClarityKeys() ensures UniqueKeys(Clarity().metrics) {
    assert |"conciseness"| == 11 && |"jargon_usage"| == 12 && |"logical_structure"| == 17;
    ThreeKeysDistinct(Clarity().metrics);
  }

  lemma AccuracyKeys() ensures UniqueKeys(Accuracy().metrics) {
    assert "data_support"[0] != "fact_verification"[0];
  }

  lemma EngagementKeys() ensures UniqueKeys(Engagement().metrics) {
    assert "audience_relevance"[0] != "tone_appropriateness"[0] && "audience_relevance"[0] != "call_to_action"[0];
    assert "tone_appropriateness"[0] != "call_to_action"[0];
    ThreeKeysDistinct(Engagement().metrics);
  }

  lemma CompletenessKeys() ensures UniqueKeys(Completeness().metrics) {
    assert "topic_coverage"[0] != "depth_analysis"[0] && "topic_coverage"[0] != "context_provision"[0];
    assert "depth_analysis"[0] != "context_provision"[0];
    ThreeKeysDistinct(Completeness().metrics);
  }

  lemma ReadabilityKeys() ensures UniqueKeys(Readability().metrics) {
    assert "sentence_structure"[0] != "paragraph_organization"[0] && "sentence_structure"[0] != "formatting_consistency"[0];
    assert "paragraph_organization"[0] != "formatting_consistency"[0];
    ThreeKeysDistinct(Readability().metrics);
  }

  lemma FiveKeysDistinct(cs: seq<(string, GuidelineCategory)>)
    requires |cs| == 5
    requires cs[0].0 != cs[1].0 && cs[0].0 != cs[2].0 && cs[0].0 != cs[3].0 && cs[0].0 != cs[4].0
    requires cs[1].0 != cs[2].0 && cs[1].0 != cs[3].0 && cs[1].0 != cs[4].0
    requires cs[2].0 != cs[3].0 && cs[2].0 != cs[4].0 && cs[3].0 != cs[4].0
    ensures UniqueKeys(cs)
  {
  }

  lemma DefaultCategoryNamesDistinct()
    ensures UniqueKeys(DefaultGuidelines().categories)
  {
    var cs := DefaultGuidelines().categories;
    assert cs[0].0 == "clarity" && cs[1].0 == "accuracy" && cs[2].0 == "engagement";
    assert cs[3].0 == "completeness" && cs[4].0 == "readability";
    assert "clarity"[0] != "accuracy"[0] && "clarity"[0] != "engagement"[0] && "clarity"[1] != "completeness"[1];
    assert "clarity"[0] != "readability"[0] && "accuracy"[0] != "engagement"[0] && "accuracy"[0] != "completeness"[0];
    assert "accuracy"[0] != "readability"[0] && "engagement"[0] != "completeness"[0] && "engagement"[0] != "readability"[0];
    assert "completeness"[0] != "readability"[0];
    FiveKeysDistinct(cs);
  }

  lemma FiveCategoriesWellFormed(g: Guidelines)
    requires |g.categories| == 5 && UniqueKeys(g.categories)
    requires UniqueKeys(g.categories[0].1.metrics) && UniqueKeys(g.categories[1].1.metrics)
    requires UniqueKeys(g.categories[2].1.metrics) && UniqueKeys(g.categories[3].1.metrics)
    requires UniqueKeys(g.categories[4].1.metrics)
    ensures WellFormed(g)
  {
    forall i | 0 <= i < 5 ensures UniqueKeys(g.categories[i].1.metrics) {
      assert i == 0 || i == 1 || i == 2 || i == 3 || i == 4;
    }
  }

  /** The default category and metric names are distinct. */
  lemma DefaultGuidelinesWellFormed()
    ensures WellFormed(DefaultGuidelines())
  {
    DefaultCategoryNamesDistinct();
    DefaultCategory0Valid();
    DefaultCategory1Valid();
    DefaultCategory2Valid();
    DefaultCategory3Valid();
    DefaultCategory4Valid();
    FiveCategoriesWellFormed(DefaultGuidelines());
  }

  /** The defaults flatten to fourteen metrics. */
  lemma DefaultMetricCount()
    ensures MetricCount(DefaultGuidelines().categories) == 14
  {
    var cs := DefaultGuidelines().categories;
    assert MetricCount(cs[..0]) == 0;
    assert cs[..1][..0] == cs[..0];
    assert MetricCount(cs[..1]) == 3;
    assert cs[..2][..1] == cs[..1];
    assert MetricCount(cs[..2]) == 5;
    assert cs[..3][..2] == cs[..2];
    assert MetricCount(cs[..3]) == 8;
    assert cs[..4][..3] == cs[..3];
    assert MetricCount(cs[..4]) == 11;
    assert cs[..4] == cs[..|cs| - 1];
  }
}
