/** The evaluator of one metric, core/agents/metric_evaluator.py: the prompt
    truncation, the fallback chain that turns an LLM reply into a
    `MetricResult`, the manual parser and the confidence rules, and the
    error policy of `evaluate_metric`. `json.loads`, the regular-expression
    searches, Jinja rendering and the provider call are parameters. */
module MetricEvaluator {
  import opened Wrappers
  import opened Text
  import opened Assoc
  import opened Models
  import opened LlmClient

  /** A value `json.loads` can produce, as the decoding oracle yields it:
      an object's keys are distinct (where a reply repeats a key,
      `json.loads` keeps the last value, and the oracle keeps that one only),
      and numbers are finite (the NaN and Infinity that `json.loads` also
      accepts are not modelled). */
  datatype Json =
    | JNull
    | JBool(b: bool)
    | JInt(i: int)
    | JFloat(r: real)
    | JStr(s: string)
    | JArray(items: seq<Json>)
    | JObject(fields: seq<(string, Json)>)

  const MaxContentLength: nat := 8000
  const TruncationMarker: string := "\n\n[Content truncated due to length...]"

  /** The content as it goes into the prompt. */
  function TruncateContent(content: string): (r: string)
    ensures |content| <= MaxContentLength ==> r == content
    ensures |content| > MaxContentLength ==> r == content[..MaxContentLength] + TruncationMarker
  {
    if |content| > MaxContentLength then content[..MaxContentLength] + TruncationMarker else content
  }

  /** The prompt never carries more than 8000 characters of content, and
      what it carries is the start of the content. */
  lemma TruncateContentBounds(content: string)
    ensures |TruncateContent(content)| <= MaxContentLength + |TruncationMarker|
    ensures var n := if |content| <= MaxContentLength then |content| else MaxContentLength;
            IsPrefix(content[..n], TruncateContent(content))
  {
  }

  // ---------------------------------------------------------------------
  // Locating the JSON text

  /** First position of `c` in `s`. */
  function FindFirst(s: string, c: char): (r: Option<nat>)
    ensures r.Some? ==> r.value < |s| && s[r.value] == c && forall k :: 0 <= k < r.value ==> s[k] != c
    ensures r.None? ==> forall k :: 0 <= k < |s| ==> s[k] != c
  {
    if s == [] then None
    else if s[0] == c then Some(0)
    else match FindFirst(s[1..], c)
      case None => None
      case Some(i) => Some(i + 1)
  }

  /** Last position of `c` in `s`. */
  function FindLast(s: string, c: char): (r: Option<nat>)
    ensures r.Some? ==> r.value < |s| && s[r.value] == c && forall k :: r.value < k < |s| ==> s[k] != c
    ensures r.None? ==> forall k :: 0 <= k < |s| ==> s[k] != c
  {
    if s == [] then None
    else if s[|s| - 1] == c then Some(|s| - 1)
    else FindLast(s[..|s| - 1], c)
  }

  /** The greedy search for `{[\s\S]*}`: from the first `{` to the last `}`,
      if that `}` comes after the `{`. */
  function BraceSpan(s: string): (r: Option<string>)
    ensures r.Some? ==> exists i, j :: 0 <= i < j < |s| && r.value == s[i..j + 1]
                                      && s[i] == '{' && s[j] == '}'
                                      && (forall k :: 0 <= k < i ==> s[k] != '{')
                                      && (forall k :: j < k < |s| ==> s[k] != '}')
    ensures r.None? <==> !exists i, j :: 0 <= i < j < |s| && s[i] == '{' && s[j] == '}'
  {
    match (FindFirst(s, '{'), FindLast(s, '}'))
    case (Some(i), Some(j)) =>
      if i < j then Some(s[i..j + 1])
      else
        assert !exists a, b :: 0 <= a < b < |s| && s[a] == '{' && s[b] == '}' by {
          forall a, b | 0 <= a < b < |s| && s[a] == '{' ensures s[b] != '}' {
            assert a >= i;
          }
        }
        None
    case _ => None
  }

  /** `re.sub(r'^[^{]*', '', s)`: drops everything before the first `{`. */
  function DropBeforeOpen(s: string): (r: string)
    ensures IsSuffix(r, s)
    ensures r == [] || r[0] == '{'
    ensures forall k :: 0 <= k < |s| - |r| ==> s[k] != '{'
  {
    match FindFirst(s, '{')
    case Some(i) => s[i..]
    case None => []
  }

  /** `re.sub(r'[^}]*$', '', s)`: drops everything after the last `}`. */
  function DropAfterClose(s: string): (r: string)
    ensures IsPrefix(r, s)
    ensures r == [] || r[|r| - 1] == '}'
    ensures forall k :: |r| <= k < |s| ==> s[k] != '}'
  {
    match FindLast(s, '}')
    case Some(j) => s[..j + 1]
    case None => []
  }

  /** The clean-up applied to the extracted text before decoding it. */
  function CleanJsonText(s: string): string {
    DropAfterClose(DropBeforeOpen(s))
  }

  /** The clean-up leaves a brace span unchanged. */
  lemma CleanBraceSpan(s: string)
    requires BraceSpan(s).Some?
    ensures CleanJsonText(BraceSpan(s).value) == BraceSpan(s).value
  {
    var t := BraceSpan(s).value;
    assert t[0] == '{' && t[|t| - 1] == '}';
    OpenFirstKept(t);
    CloseLastKept(t);
  }

  /** Text that starts with `{` loses nothing at its start. */
  lemma OpenFirstKept(t: string)
    requires t != [] && t[0] == '{'
    ensures DropBeforeOpen(t) == t
  {
    assert FindFirst(t, '{') == Some(0);
  }

  /** Text that ends with `}` loses nothing at its end. */
  lemma CloseLastKept(t: string)
    requires t != [] && t[|t| - 1] == '}'
    ensures DropAfterClose(t) == t
  {
    assert FindLast(t, '}') == Some(|t| - 1);
  }

  /** Where the parsed data came from. */
  datatype ParsePath = WholeJson | ExtractedJson | ManualParse

  /** What the manual parser's regular expressions find in a reply. Each
      section is the text of the capture group; `bullets` and `quotes` are the
      `findall` results of the list-item and quoted-text patterns over that
      text stripped. */
  datatype SectionMatch = SectionMatch(raw: string, bullets: seq<string>, quotes: seq<string>)

  type Digit = d: int | 0 <= d <= 9

  datatype ManualMatches = ManualMatches(
    score: Option<Digit>,
    reasoning: Option<string>,
    advice: Option<string>,
    positive: Option<SectionMatch>,
    improvement: Option<SectionMatch>)

  /** The dictionary `_manual_parse_response` fills in. */
  datatype ManualResult = ManualResult(
    score: int,
    reasoning: string,
    advice: string,
    positive: seq<string>,
    improvement: seq<string>,
    confidence: real)

  /** Every item stripped. */
  function StripAll(items: seq<string>): seq<string> {
    seq(|items|, k requires 0 <= k < |items| => Strip(items[k]))
  }

  /** The examples of a section: its list items stripped, else its quoted
      strings, else the whole section. */
  function SectionExamples(m: Option<SectionMatch>): (r: seq<string>)
    ensures m.None? <==> r == []
  {
    match m
    case None => []
    case Some(sec) =>
      if sec.bullets != [] then StripAll(sec.bullets)
      else if sec.quotes != [] then sec.quotes
      else [Strip(sec.raw)]
  }

  function MaxReal(a: real, b: real): real {
    if a >= b then a else b
  }

  function Indicator(b: bool): nat {
    if b then 1 else 0
  }

  /** The number of the four sections the manual parser did not find. */
  function MissingSections(m: ManualMatches): (n: nat)
    ensures n <= 4
  {
    Indicator(m.reasoning.None?) + Indicator(m.advice.None?)
    + Indicator(m.positive.None?) + Indicator(m.improvement.None?)
  }

  /** The confidence of a manual parse, in closed form: 0.7, or 0.5 when no
      score was found, less 0.1 per missing section, floored at 0.1. */
  function ManualConfidence(m: ManualMatches): real {
    MaxReal(0.1, (if m.score.Some? then 0.7 else 0.5) - Penalty(m.reasoning.None?) - Penalty(m.advice.None?)
                 - Penalty(m.positive.None?) - Penalty(m.improvement.None?))
  }

  /** What one missing section costs the manual confidence. */
  function Penalty(missing: bool): real {
    if missing then 0.1 else 0.0
  }

  lemma ManualConfidenceBounds(m: ManualMatches)
    ensures 0.1 <= ManualConfidence(m) <= 0.7
    ensures ManualConfidence(m) == 0.7 <==> m.score.Some? && MissingSections(m) == 0
    ensures m.score.None? ==> ManualConfidence(m) <= 0.5
  {
  }

  /** The manual parse result as a function of the matches. */
  function ManualSpec(m: ManualMatches): ManualResult {
    ManualResult(
      if m.score.Some? then m.score.value else 0,
      if m.reasoning.Some? then Strip(m.reasoning.value) else "",
      if m.advice.Some? then Strip(m.advice.value) else "",
      SectionExamples(m.positive),
      SectionExamples(m.improvement),
      ManualConfidence(m))
  }

  /** The examples of one section the manual parser found: its list items
      stripped, else its quoted strings, else the whole section. */
  method SectionItems(sec: SectionMatch) returns (examples: seq<string>)
    ensures examples == SectionExamples(Some(sec))
    ensures examples != []
  {
    if sec.bullets != [] {
      examples := StripAll(sec.bullets);
    } else if sec.quotes != [] {
      examples := sec.quotes;
    } else {
      examples := [Strip(sec.raw)];
    }
  }

  /** The first half of `_manual_parse_response`: the score, the reasoning
      and the advice, and the confidence those three matches leave. */
  method ManualParseTexts(m: ManualMatches) returns (result: ManualResult)
    ensures var spec := ManualSpec(m);
      result == ManualResult(spec.score, spec.reasoning, spec.advice, [], [],
                             (if m.score.Some? then 0.7 else 0.5) - Penalty(m.reasoning.None?) - Penalty(m.advice.None?))
  {
    result := ManualResult(0, "", "", [], [], 0.7);
    if m.score.Some? {
      result := result.(score := m.score.value);
    } else {
      result := result.(confidence := 0.5);
    }
    if m.reasoning.Some? {
      result := result.(reasoning := Strip(m.reasoning.value));
    } else {
      result := result.(confidence := result.confidence - 0.1);
    }
    if m.advice.Some? {
      result := result.(advice := Strip(m.advice.value));
    } else {
      result := result.(confidence := result.confidence - 0.1);
    }
  }

  /** `_manual_parse_response`: the result dictionary is updated one match
      at a time. */
  method ManualParseResponse(m: ManualMatches) returns (result: ManualResult)
    ensures result == ManualSpec(m)
  {
    result := ManualParseTexts(m);
    var positive: seq<string> := [];
    if m.positive.Some? {
      positive := SectionItems(m.positive.value);
    } else {
      result := result.(confidence := result.confidence - 0.1);
    }
    result := result.(positive := positive);
    var improvement: seq<string> := [];
    if m.improvement.Some? {
      improvement := SectionItems(m.improvement.value);
    } else {
      result := result.(confidence := result.confidence - 0.1);
    }
    result := result.(improvement := improvement);
    result := result.(confidence := MaxReal(0.1, result.confidence));
  }

  function JStrs(items: seq<string>): (r: seq<Json>)
    ensures |r| == |items|
    ensures forall k :: 0 <= k < |items| ==> r[k] == JStr(items[k])
  {
    if items == [] then [] else [JStr(items[0])] + JStrs(items[1..])
  }

  /** The manual result as the dictionary `_parse_response` reads. */
  function ManualDict(r: ManualResult): Json {
    JObject([("score", JInt(r.score)), ("reasoning", JStr(r.reasoning)),
             ("improvement_advice", JStr(r.advice)),
             ("positive_examples", JArray(JStrs(r.positive))),
             ("improvement_examples", JArray(JStrs(r.improvement))),
             ("confidence", JFloat(r.confidence))])
  }

  /** Where the data comes from: the whole reply as JSON; else the fenced
      ```json block, or failing that the brace span, cleaned and decoded; else
      the manual parser. `fencedJson` is the first capture group of the fenced
      block search. */
  function LocateData(content: string, jsonLoads: string -> Option<Json>,
                      fencedJson: string -> Option<string>, manualMatch: string -> ManualMatches)
    : (r: (Json, ParsePath))
    ensures jsonLoads(content).Some? ==> r == (jsonLoads(content).value, WholeJson)
    ensures r.1 == ExtractedJson ==>
      jsonLoads(content).None?
      && var candidate := if fencedJson(content).Some? then fencedJson(content) else BraceSpan(content);
         candidate.Some? && Some(r.0) == jsonLoads(CleanJsonText(candidate.value))
    ensures r.1 == ManualParse <==>
      jsonLoads(content).None?
      && var candidate := if fencedJson(content).Some? then fencedJson(content) else BraceSpan(content);
         (candidate.None? || jsonLoads(CleanJsonText(candidate.value)).None?)
    ensures r.1 == ManualParse ==> r.0 == ManualDict(ManualSpec(manualMatch(content)))
  {
    match jsonLoads(content)
    case Some(v) => (v, WholeJson)
    case None =>
      var candidate := if fencedJson(content).Some? then fencedJson(content) else BraceSpan(content);
      match candidate
      case None => (ManualDict(ManualSpec(manualMatch(content))), ManualParse)
      case Some(text) =>
        match jsonLoads(CleanJsonText(text))
        case Some(v) => (v, ExtractedJson)
        case None => (ManualDict(ManualSpec(manualMatch(content))), ManualParse)
  }

  // ---------------------------------------------------------------------
  // Field extraction

  const ParseErrorPrefix: string := "Failed to parse evaluation response: "
  const NoReasoning: string := "No reasoning provided"
  const NoAdvice: string := "No improvement advice provided"

  predicate IsDigit(c: char) {
    '0' <= c <= '9'
  }

  function DigitValue(c: char): (d: nat)
    requires IsDigit(c)
    ensures d < 10
  {
    c as int - '0' as int
  }

  /** The value of a string of decimal digits. */
  function DigitsValue(s: string): (n: nat)
    requires forall k :: 0 <= k < |s| ==> IsDigit(s[k])
  {
    if s == [] then 0 else DigitsValue(s[..|s| - 1]) * 10 + DigitValue(s[|s| - 1])
  }

  /** `int(s)` for a string: optional surrounding whitespace, an optional
      sign and at least one decimal digit. */
  function ParseIntText(s: string): (r: Option<int>)
    ensures r.Some? ==> Strip(s) != []
  {
    var t := Strip(s);
    var negative := t != [] && t[0] == '-';
    var body := if t != [] && (t[0] == '-' || t[0] == '+') then t[1..] else t;
    if body != [] && forall k :: 0 <= k < |body| ==> IsDigit(body[k]) then
      var magnitude: int := DigitsValue(body);
      Some(if negative then -magnitude else magnitude)
    else None
  }

  /** Python's `int(x)` truncates a float towards zero. */
  function TruncateReal(r: real): (i: int)
    ensures r >= 0.0 ==> i as real <= r < i as real + 1.0
    ensures r < 0.0 ==> i as real - 1.0 < r <= i as real
  {
    if r >= 0.0 then r.Floor else -((-r).Floor)
  }

  /** `int(result_data.get("score", 0))`. */
  function ScoreValue(v: Option<Json>): (r: Option<int>)
    ensures v.None? ==> r == Some(0)
  {
    match v
    case None => Some(0)
    case Some(JInt(i)) => Some(i)
    case Some(JBool(b)) => Some(if b then 1 else 0)
    case Some(JFloat(x)) => Some(TruncateReal(x))
    case Some(JStr(s)) => ParseIntText(s)
    case Some(_) => None
  }

  /** `max(1, min(5, score))`. */
  function ClampScore(i: int): (s: Score)
    ensures 1 <= i <= 5 ==> s == i
    ensures i < 1 ==> s == 1
    ensures i > 5 ==> s == 5
  {
    if i < 1 then 1 else if i > 5 then 5 else i
  }

  lemma ClampExamples()
    ensures ClampScore(10) == 5 && ClampScore(-1) == 1 && ClampScore(3) == 3 && ClampScore(0) == 1
  {
  }

  /** A text field with its placeholder; anything but a string fails the
      `MetricResult` validation. */
  function TextField(v: Option<Json>, placeholder: string): (r: Option<string>)
    ensures v.None? ==> r == Some(placeholder)
    ensures r.Some? && v.Some? ==> v.value == JStr(r.value)
  {
    match v
    case None => Some(placeholder)
    case Some(JStr(s)) => Some(s)
    case Some(_) => None
  }

  predicate AllStrings(items: seq<Json>) {
    forall k :: 0 <= k < |items| ==> items[k].JStr?
  }

  function Strings(items: seq<Json>): (r: seq<string>)
    requires AllStrings(items)
    ensures |r| == |items|
    ensures forall k :: 0 <= k < |items| ==> items[k] == JStr(r[k])
  {
    if items == [] then [] else [items[0].s] + Strings(items[1..])
  }

  /** `str(v)` for a value that is not a list; floats and dictionaries use
      the given `repr`. */
  function PyStr(v: Json, repr: Json -> string): string {
    match v
    case JNull => "None"
    case JBool(b) => if b then "True" else "False"
    case JInt(i) => IntToDecimal(i)
    case JStr(s) => s
    case _ => repr(v)
  }

  /** An example list: missing is [], a non-list value `v` becomes
      `[str(v)]`, and a list must hold strings only. */
  function ExampleList(v: Option<Json>, repr: Json -> string): (r: Option<seq<string>>)
    ensures v.None? ==> r == Some([])
    ensures v.Some? && !v.value.JArray? ==> r == Some([PyStr(v.value, repr)])
    ensures v.Some? && v.value.JArray? ==> (r.Some? <==> AllStrings(v.value.items))
  {
    match v
    case None => Some([])
    case Some(JArray(items)) => if AllStrings(items) then Some(Strings(items)) else None
    case Some(other) => Some([PyStr(other, repr)])
  }

  /** The confidence computed from the completeness of a JSON reply. */
  function JsonConfidence(reasoning: string, advice: string, positive: seq<string>, improvement: seq<string>): real {
    MaxReal(0.1, 1.0
      - (if reasoning == [] || reasoning == NoReasoning then 0.3 else 0.0)
      - (if advice == [] || advice == NoAdvice then 0.2 else 0.0)
      - (if positive == [] then 0.2 else 0.0)
      - (if improvement == [] then 0.2 else 0.0))
  }

  lemma JsonConfidenceBounds(reasoning: string, advice: string, positive: seq<string>, improvement: seq<string>)
    ensures 0.1 <= JsonConfidence(reasoning, advice, positive, improvement) <= 1.0
    ensures JsonConfidence(reasoning, advice, positive, improvement) == 1.0 <==>
      reasoning != [] && reasoning != NoReasoning && advice != [] && advice != NoAdvice
      && positive != [] && improvement != []
  {
  }

  /** Every field missing: 1.0 - 0.3 - 0.2 - 0.2 - 0.2, floored at 0.1. */
  lemma JsonConfidenceAllMissing()
    ensures JsonConfidence(NoReasoning, NoAdvice, [], []) == 0.1
  {
  }

  function ConfidenceValue(v: Json): Option<real> {
    match v
    case JFloat(x) => Some(x)
    case JInt(i) => Some(i as real)
    case _ => None
  }

  /** The entries `_parse_response` reads from the data dictionary.
      `manualConfidence` is the stored confidence, present only when the
      manual parser produced the dictionary and it has that key. */
  datatype RawFields = RawFields(
    score: Option<Json>,
    reasoning: Option<Json>,
    advice: Option<Json>,
    positive: Option<Json>,
    improvement: Option<Json>,
    manualConfidence: Option<Json>)

  function RawFieldsOf(fields: seq<(string, Json)>, manual: bool): RawFields {
    RawFields(Get(fields, "score"), Get(fields, "reasoning"), Get(fields, "improvement_advice"),
              Get(fields, "positive_examples"), Get(fields, "improvement_examples"),
              if manual && HasKey(fields, "confidence") then Get(fields, "confidence") else None)
  }

  /** The confidence the result takes: the manual one if present, else the
      completeness formula. */
  function ChosenConfidence(raw: RawFields, reasoning: string, advice: string,
                            positive: seq<string>, improvement: seq<string>): Option<real> {
    if raw.manualConfidence.Some? then ConfidenceValue(raw.manualConfidence.value)
    else Some(JsonConfidence(reasoning, advice, positive, improvement))
  }

  /** Building the `MetricResult` from the entries: the score is cast and
      clamped, the texts and lists take their defaults, the confidence is
      chosen, and the model validation rejects wrongly typed fields. */
  function BuildResult(raw: RawFields, metric: Metric, repr: Json -> string): (r: Result<MetricResult, string>)
    ensures r.Err? ==> IsPrefix(ParseErrorPrefix, r.error)
    ensures r.Ok? <==>
      && ScoreValue(raw.score).Some?
      && TextField(raw.reasoning, NoReasoning).Some? && TextField(raw.advice, NoAdvice).Some?
      && ExampleList(raw.positive, repr).Some? && ExampleList(raw.improvement, repr).Some?
      && var c := ChosenConfidence(raw, TextField(raw.reasoning, NoReasoning).value,
                                   TextField(raw.advice, NoAdvice).value,
                                   ExampleList(raw.positive, repr).value, ExampleList(raw.improvement, repr).value);
         c.Some? && 0.0 <= c.value <= 1.0
    ensures r.Ok? ==>
      && r.value.metric == metric
      && r.value.score == ClampScore(ScoreValue(raw.score).value)
      && Some(r.value.reasoning) == TextField(raw.reasoning, NoReasoning)
      && Some(r.value.improvementAdvice) == TextField(raw.advice, NoAdvice)
      && Some(r.value.positiveExamples) == ExampleList(raw.positive, repr)
      && Some(r.value.improvementExamples) == ExampleList(raw.improvement, repr)
      && Some(r.value.confidence) == ChosenConfidence(raw, r.value.reasoning, r.value.improvementAdvice,
                                                      r.value.positiveExamples, r.value.improvementExamples)
  {
    match ScoreValue(raw.score)
    case None => Err(ParseErrorPrefix + "the score is not an integer")
    case Some(value) =>
      var score := ClampScore(value);
      var reasoning := TextField(raw.reasoning, NoReasoning);
      var advice := TextField(raw.advice, NoAdvice);
      var positive := ExampleList(raw.positive, repr);
      var improvement := ExampleList(raw.improvement, repr);
      if reasoning.None? || advice.None? || positive.None? || improvement.None? then
        Err(ParseErrorPrefix + "a field has the wrong type")
      else
        var confidence := ChosenConfidence(raw, reasoning.value, advice.value, positive.value, improvement.value);
        if confidence.None? || !(0.0 <= confidence.value <= 1.0) then
          Err(ParseErrorPrefix + "the confidence is out of range")
        else
          Ok(MetricResult(metric, score, reasoning.value, advice.value, positive.value, improvement.value,
                          confidence.value))
  }

  /** The `try` block of `_parse_response` after the data is found; `manual`
      says whether the manual parser produced the data. A decoded value that
      is not a dictionary fails like any other field error. */
  function ExtractFields(data: Json, manual: bool, metric: Metric, repr: Json -> string)
    : (r: Result<MetricResult, string>)
    ensures r.Err? ==> IsPrefix(ParseErrorPrefix, r.error)
    ensures r.Ok? ==> data.JObject?
  {
    if !data.JObject? then Err(ParseErrorPrefix + "the decoded value is not a dictionary")
    else BuildResult(RawFieldsOf(data.fields, manual), metric, repr)
  }

  /** On the JSON paths the completeness formula always applies, so a result
      carries a confidence between 0.1 and 1. */
  lemma JsonPathConfidence(data: Json, metric: Metric, repr: Json -> string)
    requires ExtractFields(data, false, metric, repr).Ok?
    ensures var r := ExtractFields(data, false, metric, repr).value;
      r.confidence == JsonConfidence(r.reasoning, r.improvementAdvice, r.positiveExamples, r.improvementExamples)
      && 0.1 <= r.confidence
  {
    var r := ExtractFields(data, false, metric, repr).value;
    JsonConfidenceBounds(r.reasoning, r.improvementAdvice, r.positiveExamples, r.improvementExamples);
  }

  /** The parse as a function of the reply. */
  function ParseSpec(reply: string, metric: Metric, jsonLoads: string -> Option<Json>,
                     fencedJson: string -> Option<string>, manualMatch: string -> ManualMatches,
                     repr: Json -> string): (Result<MetricResult, string>, ParsePath)
  {
    var (data, path) := LocateData(Strip(reply), jsonLoads, fencedJson, manualMatch);
    (ExtractFields(data, path == ManualParse, metric, repr), path)
  }

  /** `_parse_response`: the data is located, then its fields extracted. */
  method ParseResponse(reply: string, metric: Metric, jsonLoads: string -> Option<Json>,
                       fencedJson: string -> Option<string>, manualMatch: string -> ManualMatches,
                       repr: Json -> string)
    returns (r: Result<MetricResult, string>, path: ParsePath)
    ensures (r, path) == ParseSpec(reply, metric, jsonLoads, fencedJson, manualMatch, repr)
  {
    var content := Strip(reply);
    var resultData;
    resultData, path := LocateResultData(content, jsonLoads, fencedJson, manualMatch);
    var manualParsingUsed := path == ManualParse;
    r := ExtractFields(resultData, manualParsingUsed, metric, repr);
  }

  /** The fallback chain of `_parse_response`: the variables are assigned
      step by step. */
  method LocateResultData(content: string, jsonLoads: string -> Option<Json>,
                          fencedJson: string -> Option<string>, manualMatch: string -> ManualMatches)
    returns (resultData: Json, path: ParsePath)
    ensures (resultData, path) == LocateData(content, jsonLoads, fencedJson, manualMatch)
  {
    ghost var spec := LocateData(content, jsonLoads, fencedJson, manualMatch);
    path := WholeJson;
    var decoded := jsonLoads(content);
    if decoded.Some? {
      resultData := decoded.value;
      assert spec == (decoded.value, WholeJson);
    } else {
      var jsonMatch := fencedJson(content);
      if jsonMatch.None? {
        jsonMatch := BraceSpan(content);
      }
      ghost var candidate := if fencedJson(content).Some? then fencedJson(content) else BraceSpan(content);
      assert jsonMatch == candidate;
      var extracted := if jsonMatch.Some? then jsonLoads(CleanJsonText(jsonMatch.value)) else None;
      if extracted.Some? {
        resultData := extracted.value;
        path := ExtractedJson;
        assert spec == (extracted.value, ExtractedJson);
      } else {
        var manualResult := ManualParseResponse(manualMatch(content));
        resultData := ManualDict(manualResult);
        path := ManualParse;
        assert spec == (ManualDict(ManualSpec(manualMatch(content))), ManualParse);
      }
    }
  }

  /** (a) A reply that is one JSON object is taken whole. */
  lemma BareJsonParses(reply: string, metric: Metric, jsonLoads: string -> Option<Json>,
                       fencedJson: string -> Option<string>, manualMatch: string -> ManualMatches,
                       repr: Json -> string)
    requires jsonLoads(Strip(reply)).Some? && jsonLoads(Strip(reply)).value.JObject?
    ensures ParseSpec(reply, metric, jsonLoads, fencedJson, manualMatch, repr).1 == WholeJson
  {
  }

  /** (b) A reply with prose around a fenced JSON block is parsed from the
      block. */
  lemma FencedJsonParses(reply: string, metric: Metric, jsonLoads: string -> Option<Json>,
                         fencedJson: string -> Option<string>, manualMatch: string -> ManualMatches,
                         repr: Json -> string)
    requires jsonLoads(Strip(reply)).None?
    requires fencedJson(Strip(reply)).Some?
    requires jsonLoads(CleanJsonText(fencedJson(Strip(reply)).value)).Some?
    ensures ParseSpec(reply, metric, jsonLoads, fencedJson, manualMatch, repr).1 == ExtractedJson
  {
  }

  function Missing(o: Option<string>): bool {
    o.None?
  }

  lemma GetAt(fields: seq<(string, Json)>, i: nat, key: string)
    requires i < |fields| && fields[i].0 == key
    requires forall j :: 0 <= j < i ==> fields[j].0 != key
    ensures Get(fields, key) == Some(fields[i].1)
  {
    assert Keys(fields)[i] == key;
  }

  /** The six keys of the manual dictionary are distinct, so each lookup
      finds its own entry. */
  lemma ManualScoreLookup(spec: ManualResult)
    ensures Get(ManualDict(spec).fields, "score") == Some(JInt(spec.score))
  {
    GetAt(ManualDict(spec).fields, 0, "score");
  }

  lemma ManualReasoningLookup(spec: ManualResult)
    ensures Get(ManualDict(spec).fields, "reasoning") == Some(JStr(spec.reasoning))
  {
    assert "score"[0] != "reasoning"[0];
    GetAt(ManualDict(spec).fields, 1, "reasoning");
  }

  lemma ManualAdviceLookup(spec: ManualResult)
    ensures Get(ManualDict(spec).fields, "improvement_advice") == Some(JStr(spec.advice))
  {
    assert "score"[0] != "improvement_advice"[0];
    assert "reasoning"[0] != "improvement_advice"[0];
    GetAt(ManualDict(spec).fields, 2, "improvement_advice");
  }

  lemma ManualPositiveLookup(spec: ManualResult)
    ensures Get(ManualDict(spec).fields, "positive_examples") == Some(JArray(JStrs(spec.positive)))
  {
    assert "score"[0] != "positive_examples"[0];
    assert "reasoning"[0] != "positive_examples"[0];
    assert "improvement_advice"[0] != "positive_examples"[0];
    GetAt(ManualDict(spec).fields, 3, "positive_examples");
  }

  lemma ManualImprovementLookup(spec: ManualResult)
    ensures Get(ManualDict(spec).fields, "improvement_examples") == Some(JArray(JStrs(spec.improvement)))
  {
    assert "score"[0] != "improvement_examples"[0];
    assert "reasoning"[0] != "improvement_examples"[0];
    assert "improvement_advice"[12] != "improvement_examples"[12];
    assert "positive_examples"[0] != "improvement_examples"[0];
    GetAt(ManualDict(spec).fields, 4, "improvement_examples");
  }

  lemma ManualConfidenceLookup(spec: ManualResult)
    ensures Get(ManualDict(spec).fields, "confidence") == Some(JFloat(spec.confidence))
  {
    assert "score"[0] != "confidence"[0];
    assert "reasoning"[0] != "confidence"[0];
    assert "improvement_advice"[0] != "confidence"[0];
    assert "positive_examples"[0] != "confidence"[0];
    assert "improvement_examples"[0] != "confidence"[0];
    GetAt(ManualDict(spec).fields, 5, "confidence");
  }

  lemma ManualDictLookups(spec: ManualResult)
    ensures var fields := ManualDict(spec).fields;
      && Get(fields, "score") == Some(JInt(spec.score))
      && Get(fields, "reasoning") == Some(JStr(spec.reasoning))
      && Get(fields, "improvement_advice") == Some(JStr(spec.advice))
      && Get(fields, "positive_examples") == Some(JArray(JStrs(spec.positive)))
      && Get(fields, "improvement_examples") == Some(JArray(JStrs(spec.improvement)))
      && Get(fields, "confidence") == Some(JFloat(spec.confidence))
  {
    ManualScoreLookup(spec);
    ManualReasoningLookup(spec);
    ManualAdviceLookup(spec);
    ManualPositiveLookup(spec);
    ManualImprovementLookup(spec);
    ManualConfidenceLookup(spec);
  }

  lemma {:induction false} StringsOfJStrs(items: seq<string>)
    ensures AllStrings(JStrs(items)) && Strings(JStrs(items)) == items
  {
    if items != [] {
      StringsOfJStrs(items[1..]);
      assert JStrs(items)[1..] == JStrs(items[1..]);
    }
  }

  function ManualRaw(spec: ManualResult): RawFields {
    RawFields(Some(JInt(spec.score)), Some(JStr(spec.reasoning)), Some(JStr(spec.advice)),
              Some(JArray(JStrs(spec.positive))), Some(JArray(JStrs(spec.improvement))),
              Some(JFloat(spec.confidence)))
  }

  lemma ManualRawFields(spec: ManualResult)
    ensures RawFieldsOf(ManualDict(spec).fields, true) == ManualRaw(spec)
  {
    ManualDictLookups(spec);
    assert HasKey(ManualDict(spec).fields, "confidence");
  }

  lemma BuildManualRaw(spec: ManualResult, metric: Metric, repr: Json -> string)
    requires 0.0 <= spec.confidence <= 1.0
    ensures BuildResult(ManualRaw(spec), metric, repr)
         == Ok(MetricResult(metric, ClampScore(spec.score), spec.reasoning, spec.advice,
                            spec.positive, spec.improvement, spec.confidence))
  {
    ManualRawValues(spec, repr);
  }

  /** Each entry of the manual dictionary reads back as the value it holds. */
  lemma ManualRawValues(spec: ManualResult, repr: Json -> string)
    ensures var raw := ManualRaw(spec);
      && ScoreValue(raw.score) == Some(spec.score)
      && TextField(raw.reasoning, NoReasoning) == Some(spec.reasoning)
      && TextField(raw.advice, NoAdvice) == Some(spec.advice)
      && ExampleList(raw.positive, repr) == Some(spec.positive)
      && ExampleList(raw.improvement, repr) == Some(spec.improvement)
      && ChosenConfidence(raw, spec.reasoning, spec.advice, spec.positive, spec.improvement) == Some(spec.confidence)
  {
    StringsOfJStrs(spec.positive);
    StringsOfJStrs(spec.improvement);
  }

  lemma ExtractManualResult(spec: ManualResult, metric: Metric, repr: Json -> string)
    requires 0.0 <= spec.confidence <= 1.0
    ensures ExtractFields(ManualDict(spec), true, metric, repr)
         == Ok(MetricResult(metric, ClampScore(spec.score), spec.reasoning, spec.advice,
                            spec.positive, spec.improvement, spec.confidence))
  {
    ManualRawFields(spec);
    BuildManualRaw(spec, metric, repr);
  }

  /** The manual dictionary always passes the field extraction: the score is
      clamped, the texts and lists are kept and the manual confidence used. */
  lemma ManualDictExtracts(m: ManualMatches, metric: Metric, repr: Json -> string)
    ensures var r := ExtractFields(ManualDict(ManualSpec(m)), true, metric, repr);
      && r.Ok?
      && r.value.confidence == ManualConfidence(m)
      && r.value.score == ClampScore(ManualSpec(m).score)
      && r.value.reasoning == ManualSpec(m).reasoning
      && r.value.improvementAdvice == ManualSpec(m).advice
      && r.value.positiveExamples == SectionExamples(m.positive)
      && r.value.improvementExamples == SectionExamples(m.improvement)
  {
    ManualConfidenceBounds(m);
    ExtractManualResult(ManualSpec(m), metric, repr);
  }

  /** (c) A reply without any decodable JSON always yields a result through
      the manual parser, with the manual confidence, which is below 1. */
  lemma ManualPathSucceeds(reply: string, metric: Metric, jsonLoads: string -> Option<Json>,
                           fencedJson: string -> Option<string>, manualMatch: string -> ManualMatches,
                           repr: Json -> string)
    requires ParseSpec(reply, metric, jsonLoads, fencedJson, manualMatch, repr).1 == ManualParse
    ensures var r := ParseSpec(reply, metric, jsonLoads, fencedJson, manualMatch, repr).0;
      var m := manualMatch(Strip(reply));
      && r.Ok?
      && r.value.confidence == ManualConfidence(m) < 1.0
      && r.value.score == ClampScore(if m.score.Some? then m.score.value else 0)
      && r.value.positiveExamples == SectionExamples(m.positive)
      && r.value.improvementExamples == SectionExamples(m.improvement)
  {
    var m := manualMatch(Strip(reply));
    ManualDictExtracts(m, metric, repr);
    ManualConfidenceBounds(m);
  }

  /** A JSON reply with a valid score and nothing else gets the lowest
      confidence 0.1 and the placeholder texts. */
  lemma ScoreOnlyReply(score: int, metric: Metric, repr: Json -> string)
    ensures var r := ExtractFields(JObject([("score", JInt(score))]), false, metric, repr);
      r.Ok? && r.value.confidence == 0.1 && r.value.score == ClampScore(score)
      && r.value.reasoning == NoReasoning && r.value.improvementAdvice == NoAdvice
      && r.value.positiveExamples == [] && r.value.improvementExamples == []
  {
    var fields := [("score", JInt(score))];
    assert !HasKey(fields, "reasoning") by { assert Keys(fields) == ["score"]; }
    assert !HasKey(fields, "improvement_advice") by { assert Keys(fields) == ["score"]; }
    assert !HasKey(fields, "positive_examples") by { assert Keys(fields) == ["score"]; }
    assert !HasKey(fields, "improvement_examples") by { assert Keys(fields) == ["score"]; }
    assert Get(fields, "score") == Some(JInt(score)) by { assert Keys(fields)[0] == "score"; }
  }

  // ---------------------------------------------------------------------
  // evaluate_metric

  /** The two kinds of exception `evaluate_metric` raises. */
  datatype EvalError = LlmError(error: LLMClientError) | ValueError(message: string)

  /** The system prompt sent with the request: the template's own, or the
      built-in one without JSON instructions used with structured output. */
  datatype SystemPrompt = TemplateSystemPrompt(text: string) | StructuredSystemPrompt

  /** One provider call. */
  datatype Request = Request(prompt: string, systemPrompt: SystemPrompt, structuredOutput: bool)

  datatype PromptTemplate = PromptTemplate(systemPrompt: string, userTemplate: string)

  /** The oracles the evaluator relies on. */
  datatype Oracles = Oracles(
    render: (string, string, Metric) -> string,
    jsonLoads: string -> Option<Json>,
    fencedJson: string -> Option<string>,
    manualMatch: string -> ManualMatches,
    repr: Json -> string)

  /** The request `evaluate_metric` sends for a content and a metric. */
  function RequestFor(client: ClientKind, template: PromptTemplate, oracles: Oracles,
                      content: string, metric: Metric): (q: Request)
    ensures q.structuredOutput <==> SupportsStructuredOutput(client)
    ensures q.prompt == oracles.render(template.userTemplate, TruncateContent(content), metric)
  {
    var prompt := oracles.render(template.userTemplate, TruncateContent(content), metric);
    if SupportsStructuredOutput(client) then Request(prompt, StructuredSystemPrompt, true)
    else Request(prompt, TemplateSystemPrompt(template.systemPrompt), false)
  }

  const EvaluatorRetries: int := 2
  const EvaluatorBaseDelay: real := 1.0

  /** `evaluate_metric`. Blank content is rejected before any call; LLM
      errors from the retry loop pass through unchanged; a reply that cannot
      be parsed becomes "Failed to evaluate metric {name}: ...". */
  method EvaluateMetric(client: ClientKind, template: PromptTemplate, oracles: Oracles,
                        provider: (Request, nat) -> CallOutcome, jitter: nat -> real,
                        content: string, metric: Metric)
    returns (r: Result<MetricResult, EvalError>, calls: nat)
    ensures IsBlank(content) ==> r == Err(ValueError("Content cannot be empty")) && calls == 0
    ensures !IsBlank(content) ==>
      var q := RequestFor(client, template, oracles, content, metric);
      var run := Retry((k: nat) => provider(q, k), jitter, EvaluatorRetries, EvaluatorBaseDelay, 0);
      && calls == run.calls
      && (run.result.Err? ==> r == Err(LlmError(run.result.error)))
      && (run.result.Ok? ==>
            var parsed := ParseSpec(run.result.value.content, metric, oracles.jsonLoads, oracles.fencedJson,
                                    oracles.manualMatch, oracles.repr).0;
            (parsed.Ok? ==> r == Ok(parsed.value))
            && (parsed.Err? ==> r == Err(ValueError("Failed to evaluate metric " + metric.name + ": " + parsed.error))))
  {
    if IsBlank(content) {
      return Err(ValueError("Content cannot be empty")), 0;
    }
    var q := RequestFor(client, template, oracles, content, metric);
    var response, n, delays := GenerateWithRetry((k: nat) => provider(q, k), jitter, EvaluatorRetries, EvaluatorBaseDelay);
    calls := n;
    if response.Err? {
      return Err(LlmError(response.error)), calls;
    }
    var parsed, path := ParseResponse(response.value.content, metric, oracles.jsonLoads, oracles.fencedJson,
                                      oracles.manualMatch, oracles.repr);
    if parsed.Err? {
      return Err(ValueError("Failed to evaluate metric " + metric.name + ": " + parsed.error)), calls;
    }
    r := Ok(parsed.value);
  }

  /** With the evaluator's budget of two retries, at most three calls are
      made for one metric. */
  lemma EvaluatorCallBound(q: Request, provider: (Request, nat) -> CallOutcome, jitter: nat -> real)
    ensures 1 <= Retry((k: nat) => provider(q, k), jitter, EvaluatorRetries, EvaluatorBaseDelay, 0).calls <= 3
  {
    RetryCallBounds((k: nat) => provider(q, k), jitter, EvaluatorRetries, EvaluatorBaseDelay, 0);
  }
}
