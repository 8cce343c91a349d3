/** Report naming and the Markdown report: file names built from the
    evaluation's timestamp and a short content hash, the choice of format
    and extension when saving, and the Markdown text itself. */
module Reports {
  import opened Wrappers
  import opened Text
  import opened Assoc
  import opened Models
  import opened Grouping

  // ---------------------------------------------------------------------
  // Timestamps

  predicate IsDigit(c: char) {
    '0' <= c <= '9'
  }

  function Pow10(w: nat): (p: nat)
    ensures p >= 1
  {
    if w == 0 then 1 else 10 * Pow10(w - 1)
  }

  /** `n` in exactly `width` decimal digits, zero-padded (`%04d`, `%02d`). */
  function Digits(n: nat, width: nat): (r: string)
    ensures |r| == width
    ensures forall k :: 0 <= k < |r| ==> IsDigit(r[k])
  {
    if width == 0 then "" else Digits(n / 10, width - 1) + [DigitChar(n % 10)]
  }

  /** The number a string of digits denotes. */
  function DigitsValue(s: string): nat
    requires forall k :: 0 <= k < |s| ==> IsDigit(s[k])
  {
    if s == [] then 0
    else
      var c := s[|s| - 1];
      assert IsDigit(c);
      10 * DigitsValue(s[..|s| - 1]) + (c as int - '0' as int)
  }

  lemma DivBound(n: nat, w: nat)
    requires w >= 1 && n < Pow10(w)
    ensures n / 10 < Pow10(w - 1)
  {
    assert Pow10(w) == 10 * Pow10(w - 1);
  }

  /** Zero-padded digits read back as the number they were made from. */
  lemma {:induction false} DigitsRoundTrip(n: nat, width: nat)
    requires n < Pow10(width)
    ensures DigitsValue(Digits(n, width)) == n
  {
    if width > 0 {
      DivBound(n, width);
      DigitsRoundTrip(n / 10, width - 1);
      var s := Digits(n, width);
      assert s[..|s| - 1] == Digits(n / 10, width - 1);
      assert s[|s| - 1] == DigitChar(n % 10);
    } else {
      assert n == 0;
    }
  }

  /** `strftime("%Y%m%d_%H%M%S")`. */
  function FileStamp(t: DateTime): (r: string)
    ensures |r| == 15
  {
    Digits(t.year, 4) + Digits(t.month, 2) + Digits(t.day, 2) + "_"
    + Digits(t.hour, 2) + Digits(t.minute, 2) + Digits(t.second, 2)
  }

  /** `strftime("%Y-%m-%d %H:%M:%S")`. */
  function DisplayStamp(t: DateTime): (r: string)
    ensures |r| == 19
  {
    Digits(t.year, 4) + "-" + Digits(t.month, 2) + "-" + Digits(t.day, 2) + " "
    + Digits(t.hour, 2) + ":" + Digits(t.minute, 2) + ":" + Digits(t.second, 2)
  }

  /** The six fields of a file stamp, read back. */
  function ParseFileStamp(s: string): (int, int, int, int, int, int)
    requires |s| == 15 && forall k :: 0 <= k < 15 && k != 8 ==> IsDigit(s[k])
  {
    (DigitsValue(s[0..4]), DigitsValue(s[4..6]), DigitsValue(s[6..8]),
     DigitsValue(s[9..11]), DigitsValue(s[11..13]), DigitsValue(s[13..15]))
  }

  lemma Pow10Values()
    ensures Pow10(2) == 100 && Pow10(4) == 10000
  {
    assert Pow10(1) == 10;
    assert Pow10(3) == 1000;
  }

  /** A file stamp determines the time it was made from. */
  lemma FileStampRoundTrip(t: DateTime)
    ensures var s := FileStamp(t);
      (forall k :: 0 <= k < 15 && k != 8 ==> IsDigit(s[k]))
      && ParseFileStamp(s) == (t.year as int, t.month as int, t.day as int,
                               t.hour as int, t.minute as int, t.second as int)
  {
    var s := FileStamp(t);
    var y, mo, d := Digits(t.year, 4), Digits(t.month, 2), Digits(t.day, 2);
    var h, mi, se := Digits(t.hour, 2), Digits(t.minute, 2), Digits(t.second, 2);
    var p := y + mo + d + "_" + h + mi;
    assert s == p + se && |p| == 13;
    assert s[13..15] == se;
    assert s[..13] == p;
    assert s[0..4] == y && s[4..6] == mo && s[6..8] == d;
    assert s[9..11] == h && s[11..13] == mi;
    forall k | 0 <= k < 15 && k != 8 ensures IsDigit(s[k]) {
      if k < 4 { assert s[k] == y[k]; }
      else if k < 6 { assert s[k] == mo[k - 4]; }
      else if k < 8 { assert s[k] == d[k - 6]; }
      else if k < 11 { assert s[k] == h[k - 9]; }
      else if k < 13 { assert s[k] == mi[k - 11]; }
      else { assert s[k] == se[k - 13]; }
    }
    Pow10Values();
    DigitsRoundTrip(t.year, 4);
    DigitsRoundTrip(t.month, 2);
    DigitsRoundTrip(t.day, 2);
    DigitsRoundTrip(t.hour, 2);
    DigitsRoundTrip(t.minute, 2);
    DigitsRoundTrip(t.second, 2);
  }

  /** Whether two times agree down to the second. */
  predicate SameSecond(a: DateTime, b: DateTime) {
    && a.year == b.year && a.month == b.month && a.day == b.day
    && a.hour == b.hour && a.minute == b.minute && a.second == b.second
  }

  /** Two times share a file stamp iff they agree down to the second: the
      stamp drops the microseconds. */
  lemma FileStampSameSecond(a: DateTime, b: DateTime)
    ensures FileStamp(a) == FileStamp(b) <==> SameSecond(a, b)
  {
    FileStampRoundTrip(a);
    FileStampRoundTrip(b);
  }

  /** Two distinct times half a second apart share a stamp. */
  lemma StampCollision()
    ensures var a := DateTime(2024, 5, 1, 12, 30, 15, 0);
      var b := DateTime(2024, 5, 1, 12, 30, 15, 500000);
      a != b && FileStamp(a) == FileStamp(b)
  {
  }

  // ---------------------------------------------------------------------
  // File names

  /** `report_{timestamp}_{content_hash[:8]}`. */
  function ReportPrefix(result: EvaluationResult): (r: string)
    ensures |r| == 23 + |SliceTo(result.contentHash, 8)|
    ensures r[..7] == "report_" && r[7..22] == FileStamp(result.timestamp) && r[22] == '_'
    ensures r[23..] == SliceTo(result.contentHash, 8)
  {
    "report_" + FileStamp(result.timestamp) + "_" + SliceTo(result.contentHash, 8)
  }

  /** `generate_filename`: the report prefix, a dot and the extension. The
      hash part is the first eight characters of the hash, or all of a
      shorter one. */
  function GenerateFilename(result: EvaluationResult, extension: string): (r: string)
    ensures r == ReportPrefix(result) + "." + extension
    ensures |result.contentHash| >= 8 ==> |r| == 32 + |extension| && r[23..31] == result.contentHash[..8]
  {
    ReportPrefix(result) + "." + extension
  }

  /** Two results for the same content made within one second get the same
      generated file name, so saving the second overwrites the first. */
  lemma SameSecondSameFilename(r1: EvaluationResult, r2: EvaluationResult, extension: string)
    requires r1.contentHash == r2.contentHash && SameSecond(r1.timestamp, r2.timestamp)
    ensures GenerateFilename(r1, extension) == GenerateFilename(r2, extension)
  {
    FileStampSameSecond(r1.timestamp, r2.timestamp);
  }

  datatype ReportFormat = JsonReport | MarkdownReport

  /** The format check of `save_report`, case-insensitive. */
  function ParseFormat(formatType: string): (r: Result<ReportFormat, string>)
    ensures r.Ok? <==> Lower(formatType) in ["json", "md", "markdown"]
    ensures r == Ok(JsonReport) <==> Lower(formatType) == "json"
    ensures r.Err? ==> r.error == "Invalid format type: " + formatType + ". Must be 'json' or 'md'/'markdown'"
  {
    var f := Lower(formatType);
    if f == "json" then Ok(JsonReport)
    else if f == "md" || f == "markdown" then Ok(MarkdownReport)
    else Err("Invalid format type: " + formatType + ". Must be 'json' or 'md'/'markdown'")
  }

  function Extension(f: ReportFormat): string {
    match f
    case JsonReport => "json"
    case MarkdownReport => "md"
  }

  /** A report to be written: where, and what. */
  datatype SavedReport = SavedReport(path: string, content: string)

  /** `save_report`, with `os.path.join` as `join`, `json.dumps` of the result
      as `toJson` and the Markdown float formatting as parameters. A custom
      file name, when non-empty, replaces the generated one. */
  function SaveReport(reportsDir: string, result: EvaluationResult, formatType: string,
                      customFilename: Option<string>, join: (string, string) -> string,
                      toJson: EvaluationResult -> string, fmt2: real -> string,
                      metaStr: MetaValue -> string): (r: Result<SavedReport, string>)
    ensures r.Ok? <==> ParseFormat(formatType).Ok?
    ensures r.Ok? && customFilename.Some? && customFilename.value != "" ==>
      r.value.path == join(reportsDir, customFilename.value)
    ensures r.Ok? && (customFilename.None? || customFilename.value == "") ==>
      r.value.path == join(reportsDir, GenerateFilename(result, Extension(ParseFormat(formatType).value)))
    ensures r.Ok? ==> r.value.content == if ParseFormat(formatType).value == JsonReport then toJson(result)
                                         else Markdown(result, fmt2, metaStr)
  {
    match ParseFormat(formatType)
    case Err(e) => Err(e)
    case Ok(f) =>
      var filename := if customFilename.Some? && customFilename.value != "" then customFilename.value
                      else GenerateFilename(result, Extension(f));
      var content := if f == JsonReport then toJson(result) else Markdown(result, fmt2, metaStr);
      Ok(SavedReport(join(reportsDir, filename), content))
  }

  /** The two format names `save_all_formats` passes are accepted as they are. */
  lemma FixedFormats()
    ensures ParseFormat("json") == Ok(JsonReport) && ParseFormat("md") == Ok(MarkdownReport)
  {
    assert Lower("json") == "json";
    assert Lower("md") == "md";
  }

  datatype AllPaths = AllPaths(json: string, markdown: string)

  /** `save_all_formats`: both files share one prefix, the custom one when
      non-empty and the default report prefix otherwise. */
  function SaveAllFormats(reportsDir: string, result: EvaluationResult, customPrefix: Option<string>,
                          join: (string, string) -> string, toJson: EvaluationResult -> string,
                          fmt2: real -> string, metaStr: MetaValue -> string): (r: AllPaths)
  {
    var prefix := if customPrefix.Some? && customPrefix.value != "" then customPrefix.value
                  else ReportPrefix(result);
    var j := SaveReport(reportsDir, result, "json", Some(prefix + ".json"), join, toJson, fmt2, metaStr);
    var m := SaveReport(reportsDir, result, "md", Some(prefix + ".md"), join, toJson, fmt2, metaStr);
    FixedFormats();
    AllPaths(j.value.path, m.value.path)
  }

  /** Without a custom prefix the two files have exactly the names
      `generate_filename` gives for "json" and "md". */
  lemma SaveAllFormatsDefaultNames(reportsDir: string, result: EvaluationResult, customPrefix: Option<string>,
                                   join: (string, string) -> string, toJson: EvaluationResult -> string,
                                   fmt2: real -> string, metaStr: MetaValue -> string)
    requires customPrefix.None? || customPrefix.value == ""
    ensures var r := SaveAllFormats(reportsDir, result, customPrefix, join, toJson, fmt2, metaStr);
      && r.json == join(reportsDir, GenerateFilename(result, "json"))
      && r.markdown == join(reportsDir, GenerateFilename(result, "md"))
  {
    FixedFormats();
    var prefix := ReportPrefix(result);
    assert prefix + ".json" == GenerateFilename(result, "json");
    assert prefix + ".md" == GenerateFilename(result, "md");
  }

  /** With a custom prefix the two files are that prefix with each extension. */
  lemma SaveAllFormatsCustomNames(reportsDir: string, result: EvaluationResult, prefix: string,
                                  join: (string, string) -> string, toJson: EvaluationResult -> string,
                                  fmt2: real -> string, metaStr: MetaValue -> string)
    requires prefix != ""
    ensures var r := SaveAllFormats(reportsDir, result, Some(prefix), join, toJson, fmt2, metaStr);
      && r.json == join(reportsDir, prefix + ".json")
      && r.markdown == join(reportsDir, prefix + ".md")
  {
    FixedFormats();
  }

  // ---------------------------------------------------------------------
  // The Markdown report

  // The fixed pieces of the report's text.
  const ReportTitle: string := "# Content Evaluation Report"
  const GeneratedLabel: string := "Generated: "
  const HashLabel: string := "Content Hash: "
  const OverallLabel: string := "## Overall Score: "
  const OutOfFive: string := "/5.00"
  const CategoryHeading: string := "## Category Scores"
  const MetricResultsHeading: string := "\n## Metric Results\n"
  const SectionPrefix: string := "### "
  const MetricPrefix: string := "#### "
  const ScoreLabel: string := "**Score**: "
  const ScoreSuffix: string := "/5"
  const ReasoningLabel: string := "**Reasoning**: "
  const AdviceLabel: string := "**Improvement Advice**: "
  const PositiveTitle: string := "**Positive Examples**:"
  const ImprovementTitle: string := "**Improvement Examples**:"
  const MetadataHeading: string := "## Metadata\n"
  const BulletOpen: string := "- **"
  const BulletClose: string := "**: "
  const QuoteOpen: string := "- \""
  const QuoteClose: string := "\""
  const NewLine: string := "\n"

  function HeaderLines(result: EvaluationResult, fmt2: real -> string): seq<string> {
    [ReportTitle,
     GeneratedLabel + DisplayStamp(result.timestamp),
     HashLabel + result.contentHash,
     "",
     OverallLabel + fmt2(result.overallScore as real) + OutOfFive,
     "",
     CategoryHeading,
     ""]
  }

  function CategoryLine(c: (string, real), fmt2: real -> string): string {
    BulletOpen + Capitalize(c.0) + BulletClose + fmt2(c.1) + OutOfFive
  }

  /** One line per category score, in dictionary order. */
  function CategoryLines(cs: seq<(string, real)>, fmt2: real -> string): (r: seq<string>)
    ensures |r| == |cs|
    ensures forall k :: 0 <= k < |cs| ==> r[k] == CategoryLine(cs[k], fmt2)
  {
    if cs == [] then [] else CategoryLines(cs[..|cs| - 1], fmt2) + [CategoryLine(cs[|cs| - 1], fmt2)]
  }

  function QuotedLine(x: string): string {
    QuoteOpen + x + QuoteClose
  }

  function QuotedLines(xs: seq<string>): (r: seq<string>)
    ensures |r| == |xs|
    ensures forall k :: 0 <= k < |xs| ==> r[k] == QuotedLine(xs[k])
  {
    if xs == [] then [] else QuotedLines(xs[..|xs| - 1]) + [QuotedLine(xs[|xs| - 1])]
  }

  /** An example section: present only for a non-empty list. */
  function ExampleLines(title: string, xs: seq<string>): (r: seq<string>)
    ensures r == [] <==> xs == []
    ensures xs != [] ==> |r| == |xs| + 2 && r[0] == title && r[|r| - 1] == ""
  {
    if xs == [] then [] else [title] + QuotedLines(xs) + [""]
  }

  /** The fixed lines of one metric result, before its examples. */
  function MetricHeadLines(m: MetricResult): seq<string> {
    [MetricPrefix + Capitalize(m.metric.name),
     "*" + m.metric.description + "*" + NewLine,
     ScoreLabel + IntToDecimal(m.score) + ScoreSuffix,
     ReasoningLabel + m.reasoning,
     AdviceLabel + m.improvementAdvice + NewLine]
  }

  function MetricLines(m: MetricResult): seq<string> {
    MetricHeadLines(m)
    + ExampleLines(PositiveTitle, m.positiveExamples)
    + ExampleLines(ImprovementTitle, m.improvementExamples)
  }

  function MetricsLines(ms: seq<MetricResult>): seq<string> {
    if ms == [] then [] else MetricsLines(ms[..|ms| - 1]) + MetricLines(ms[|ms| - 1])
  }

  function SectionHeading(category: string): string {
    SectionPrefix + Capitalize(category) + NewLine
  }

  function SectionLines(group: (string, seq<MetricResult>)): seq<string> {
    [SectionHeading(group.0)] + MetricsLines(group.1)
  }

  function SectionsLines(groups: seq<(string, seq<MetricResult>)>): seq<string> {
    if groups == [] then [] else SectionsLines(groups[..|groups| - 1]) + SectionLines(groups[|groups| - 1])
  }

  function MetadataLine(e: (string, MetaValue), metaStr: MetaValue -> string): string {
    BulletOpen + e.0 + BulletClose + metaStr(e.1)
  }

  function MetadataEntries(md: seq<(string, MetaValue)>, metaStr: MetaValue -> string): (r: seq<string>)
    ensures |r| == |md|
  {
    if md == [] then [] else MetadataEntries(md[..|md| - 1], metaStr) + [MetadataLine(md[|md| - 1], metaStr)]
  }

  /** Concatenation regrouped, stated once over any element type. */
  lemma Regroup<T>(a: seq<T>, b: seq<T>, c: seq<T>)
    ensures a + b + c == a + (b + c)
  {
  }

  lemma MetricsLinesSnoc(ms: seq<MetricResult>, i: nat)
    requires i < |ms|
    ensures MetricsLines(ms[..i + 1]) == MetricsLines(ms[..i]) + MetricLines(ms[i])
  {
    assert ms[..i + 1][..i] == ms[..i];
  }

  lemma SectionsLinesSnoc(groups: seq<(string, seq<MetricResult>)>, i: nat)
    requires i < |groups|
    ensures SectionsLines(groups[..i + 1]) == SectionsLines(groups[..i]) + SectionLines(groups[i])
  {
    assert groups[..i + 1][..i] == groups[..i];
  }

  /** The metadata section: present only for non-empty metadata. */
  function MetadataLines(md: seq<(string, MetaValue)>, metaStr: MetaValue -> string): (r: seq<string>)
    ensures r == [] <==> md == []
    ensures md != [] ==> |r| == |md| + 1 && r[0] == MetadataHeading
  {
    if md == [] then [] else [MetadataHeading] + MetadataEntries(md, metaStr)
  }

  /** The lines of `to_markdown`: the header, one line per category score,
      one section per category of the metric results in first-appearance
      order, and the metadata. */
  function MarkdownLines(result: EvaluationResult, fmt2: real -> string, metaStr: MetaValue -> string): seq<string> {
    HeaderLines(result, fmt2)
    + CategoryLines(result.categoryScores, fmt2)
    + [MetricResultsHeading]
    + SectionsLines(GroupByCategory(result.metricResults))
    + MetadataLines(result.metadata, metaStr)
  }

  function Markdown(result: EvaluationResult, fmt2: real -> string, metaStr: MetaValue -> string): string {
    Join(NewLine, MarkdownLines(result, fmt2, metaStr))
  }

  /** The sections follow the categories in the order they first occur,
      each category once, and each section lists exactly that category's
      results in their original order. */
  lemma MarkdownSections(result: EvaluationResult, c: string)
    ensures var groups := GroupByCategory(result.metricResults);
      && Keys(groups) == FirstAppearances(result.metricResults)
      && UniqueKeys(groups)
      && (HasKey(groups, c) <==> HasCategory(result.metricResults, c))
      && (HasKey(groups, c) ==> Get(groups, c).value == InCategory(result.metricResults, c))
  {
    GroupKeysInFirstAppearanceOrder(result.metricResults);
    GroupByCategoryCorrect(result.metricResults, c);
  }

  /** The loop over category scores. */
  method AppendCategoryLines(lines: seq<string>, cs: seq<(string, real)>, fmt2: real -> string)
    returns (out: seq<string>)
    ensures out == lines + CategoryLines(cs, fmt2)
  {
    out := lines;
    var i := 0;
    while i < |cs|
      invariant 0 <= i <= |cs|
      invariant out == lines + CategoryLines(cs[..i], fmt2)
    {
      assert cs[..i + 1][..i] == cs[..i];
      Regroup(lines, CategoryLines(cs[..i], fmt2), [CategoryLine(cs[i], fmt2)]);
      out := out + [CategoryLine(cs[i], fmt2)];
      i := i + 1;
    }
    assert cs[..|cs|] == cs;
  }

  /** The loop filling `metrics_by_category`. */
  method GroupMetrics(rs: seq<MetricResult>) returns (groups: seq<(string, seq<MetricResult>)>)
    ensures groups == GroupByCategory(rs)
  {
    groups := [];
    var i := 0;
    while i < |rs|
      invariant 0 <= i <= |rs|
      invariant groups == GroupByCategory(rs[..i])
    {
      assert rs[..i + 1][..i] == rs[..i];
      var category := rs[i].metric.category;
      var current := if HasKey(groups, category) then Get(groups, category).value else [];
      groups := Put(groups, category, current + [rs[i]]);
      i := i + 1;
    }
    assert rs[..|rs|] == rs;
  }

  /** An example section with its loop. */
  method AppendExamples(lines: seq<string>, title: string, xs: seq<string>) returns (out: seq<string>)
    ensures out == lines + ExampleLines(title, xs)
  {
    out := lines;
    if xs != [] {
      var head := lines + [title];
      out := head;
      var i := 0;
      while i < |xs|
        invariant 0 <= i <= |xs|
        invariant out == head + QuotedLines(xs[..i])
      {
        assert xs[..i + 1][..i] == xs[..i];
        Regroup(head, QuotedLines(xs[..i]), [QuotedLine(xs[i])]);
        out := out + [QuotedLine(xs[i])];
        i := i + 1;
      }
      assert xs[..|xs|] == xs;
      out := out + [""];
      Regroup(lines, [title], QuotedLines(xs));
      Regroup(lines, [title] + QuotedLines(xs), [""]);
    }
  }

  /** The lines of one metric result. */
  method AppendMetric(lines: seq<string>, m: MetricResult) returns (out: seq<string>)
    ensures out == lines + MetricLines(m)
  {
    var head := MetricHeadLines(m);
    var positive := ExampleLines(PositiveTitle, m.positiveExamples);
    var improvement := ExampleLines(ImprovementTitle, m.improvementExamples);
    out := lines + head;
    out := AppendExamples(out, PositiveTitle, m.positiveExamples);
    out := AppendExamples(out, ImprovementTitle, m.improvementExamples);
    Regroup(lines, head, positive);
    Regroup(lines, head + positive, improvement);
  }

  /** The loop over one category's metric results. */
  method AppendSection(lines: seq<string>, group: (string, seq<MetricResult>)) returns (out: seq<string>)
    ensures out == lines + SectionLines(group)
  {
    var head := lines + [SectionHeading(group.0)];
    out := head;
    var ms := group.1;
    var i := 0;
    while i < |ms|
      invariant 0 <= i <= |ms|
      invariant out == head + MetricsLines(ms[..i])
    {
      MetricsLinesSnoc(ms, i);
      Regroup(head, MetricsLines(ms[..i]), MetricLines(ms[i]));
      out := AppendMetric(out, ms[i]);
      i := i + 1;
    }
    assert ms[..|ms|] == ms;
    Regroup(lines, [SectionHeading(group.0)], MetricsLines(ms));
  }

  /** The loop over the categories. */
  method AppendSections(lines: seq<string>, groups: seq<(string, seq<MetricResult>)>) returns (out: seq<string>)
    ensures out == lines + SectionsLines(groups)
  {
    out := lines;
    var i := 0;
    while i < |groups|
      invariant 0 <= i <= |groups|
      invariant out == lines + SectionsLines(groups[..i])
    {
      SectionsLinesSnoc(groups, i);
      Regroup(lines, SectionsLines(groups[..i]), SectionLines(groups[i]));
      out := AppendSection(out, groups[i]);
      i := i + 1;
    }
    assert groups[..|groups|] == groups;
  }

  /** The metadata section with its loop. */
  method AppendMetadata(lines: seq<string>, md: seq<(string, MetaValue)>, metaStr: MetaValue -> string)
    returns (out: seq<string>)
    ensures out == lines + MetadataLines(md, metaStr)
  {
    out := lines;
    if md != [] {
      var head := lines + [MetadataHeading];
      out := head;
      var i := 0;
      while i < |md|
        invariant 0 <= i <= |md|
        invariant out == head + MetadataEntries(md[..i], metaStr)
      {
        assert md[..i + 1][..i] == md[..i];
        Regroup(head, MetadataEntries(md[..i], metaStr), [MetadataLine(md[i], metaStr)]);
        out := out + [MetadataLine(md[i], metaStr)];
        i := i + 1;
      }
      assert md[..|md|] == md;
      Regroup(lines, [MetadataHeading], MetadataEntries(md, metaStr));
    }
  }

  /** `to_markdown`. */
  method ToMarkdown(result: EvaluationResult, fmt2: real -> string, metaStr: MetaValue -> string)
    returns (text: string)
    ensures text == Markdown(result, fmt2, metaStr)
  {
    var mdLines := HeaderLines(result, fmt2);
    mdLines := AppendCategoryLines(mdLines, result.categoryScores, fmt2);
    mdLines := mdLines + [MetricResultsHeading];
    var metricsByCategory := GroupMetrics(result.metricResults);
    mdLines := AppendSections(mdLines, metricsByCategory);
    mdLines := AppendMetadata(mdLines, result.metadata, metaStr);
    text := Join(NewLine, mdLines);
  }
}
