/** The checks the web page applies to pasted and uploaded content, and the
    closing of the radar chart's polygon. */
module WebPage {
  import opened Wrappers
  import opened Text
  import opened Assoc

  const MaxContentLength: nat := 20000
  /** One mebibyte. */
  const MaxUploadSize: nat := 1024 * 1024
  const AllowedExtensions: seq<string> := [".md", ".txt"]

  const EmptyContent: string := "Content cannot be empty"
  const ContentTooLong: string := "Content exceeds maximum length of 20000 characters"

  /** `validate_content`: blank content first, then the length limit. */
  function ValidateContent(content: string): (r: (bool, string))
    ensures r.0 <==> !IsBlank(content) && |content| <= MaxContentLength
    ensures r.0 ==> r.1 == ""
    ensures IsBlank(content) ==> r == (false, EmptyContent)
    ensures !IsBlank(content) && |content| > MaxContentLength ==> r == (false, ContentTooLong)
  {
    StripEmptyIffBlank(content);
    if content == [] || Strip(content) == [] then (false, EmptyContent)
    else if |content| > MaxContentLength then (false, ContentTooLong)
    else (true, "")
  }

  /** Content at the limit is accepted, one character more is not. */
  lemma LengthLimitIsInclusive(content: string)
    requires !IsBlank(content)
    ensures |content| == MaxContentLength ==> ValidateContent(content).0
    ensures |content| == MaxContentLength + 1 ==> !ValidateContent(content).0
  {
  }

  // ---------------------------------------------------------------------
  // Uploaded files

  /** The position of the last `c` in `s`, or -1. */
  function LastIndex(s: string, c: char): (r: int)
    ensures -1 <= r < |s|
    ensures r >= 0 ==> s[r] == c
    ensures forall k :: r < k < |s| ==> s[k] != c
  {
    if s == [] then -1
    else if s[|s| - 1] == c then |s| - 1
    else LastIndex(s[..|s| - 1], c)
  }

  /** Whether `s[from..to]` holds a character other than a dot. */
  predicate HasNonDot(s: string, from: int, to: int)
    requires 0 <= from && to <= |s|
  {
    exists k :: from <= k < to && s[k] != '.'
  }

  /** `os.path.splitext(name)[1]` on POSIX: from the last dot of the last
      path component, unless that component's dots are all leading. */
  function Extension(name: string): (r: string)
  {
    var sep := LastIndex(name, '/');
    var dot := LastIndex(name, '.');
    if dot > sep && HasNonDot(name, sep + 1, dot) then name[dot..] else ""
  }

  /** An extension is a suffix of the name that starts with its only dot and
      lies within the last path component. */
  lemma ExtensionShape(name: string)
    ensures var e := Extension(name);
      && IsSuffix(e, name)
      && (e != [] ==> e[0] == '.' && forall k :: 0 < k < |e| ==> e[k] != '.' && e[k] != '/')
      && (e != [] ==> |e| < |name| && name[|name| - |e| - 1] != '/')
  {
    var e := Extension(name);
    var sep := LastIndex(name, '/');
    var dot := LastIndex(name, '.');
    if e != [] {
      assert dot > sep && e == name[dot..];
      forall k | 0 < k < |e| ensures e[k] != '.' && e[k] != '/' {
        assert e[k] == name[dot + k];
      }
      var j :| sep + 1 <= j < dot && name[j] != '.';
      assert name[|name| - |e| - 1] == name[dot - 1];
      assert dot - 1 > sep;
    }
    assert name[|name| - |e|..] == e;
  }

  /** Names with the two allowed extensions, and the leading-dot case. */
  lemma ExtensionExamples()
    ensures Extension("notes.md") == ".md"
    ensures Extension("dir.v2/readme") == ""
    ensures Extension(".txt") == ""
  {
    assert LastIndex("notes.md", '/') == -1;
    assert LastIndex("notes.md", '.') == 5;
    assert "notes.md"[0] != '.';
    var d := "dir.v2/readme";
    assert d[3] == '.' && d[6] == '/';
    assert forall k :: 6 < k < |d| ==> d[k] != '/' && d[k] != '.';
    assert d[4] != '.' && d[5] != '.';
    assert LastIndex(d, '/') == 6 && LastIndex(d, '.') == 3;
    var t := ".txt";
    assert t[0] == '.' && t[1] != '.' && t[2] != '.' && t[3] != '.';
    assert LastIndex(t, '.') == 0;
  }

  /** What reading the upload's bytes as UTF-8 gives. */
  datatype DecodeOutcome = Decoded(text: string) | NotUtf8 | ReadFailed(message: string)

  /** An uploaded file: its name, its size in bytes and its decoded content. */
  datatype UploadedFile = UploadedFile(name: string, size: nat, content: DecodeOutcome)

  datatype ReadOutcome = ReadOutcome(success: bool, contentOrError: string, fileName: Option<string>)

  const NoFile: string := "No file uploaded"
  const FileTooLarge: string := "File size exceeds maximum allowed size of 1.0MB"
  const UnsupportedFormat: string := "Unsupported file format. Allowed formats: .md, .txt"
  const BadEncoding: string := "File encoding not supported. Please upload a UTF-8 encoded text file."
  const ReadErrorPrefix: string := "Error reading file: "

  predicate AllowedName(name: string) {
    Lower(Extension(name)) in AllowedExtensions
  }

  /** `read_file_content`: no file, then the size limit, then the extension
      (case-insensitive), then decoding. */
  function ReadFileContent(file: Option<UploadedFile>): (r: ReadOutcome)
    ensures r.success <==> file.Some? && file.value.size <= MaxUploadSize && AllowedName(file.value.name)
                           && file.value.content.Decoded?
    ensures r.success ==> r.contentOrError == file.value.content.text && r.fileName == Some(file.value.name)
    ensures !r.success ==> r.fileName == None
    ensures file.None? ==> r.contentOrError == NoFile
    ensures file.Some? && file.value.size > MaxUploadSize ==> r.contentOrError == FileTooLarge
    ensures file.Some? && file.value.size <= MaxUploadSize && !AllowedName(file.value.name) ==>
      r.contentOrError == UnsupportedFormat
  {
    match file
    case None => ReadOutcome(false, NoFile, None)
    case Some(f) =>
      if f.size > MaxUploadSize then ReadOutcome(false, FileTooLarge, None)
      else if !AllowedName(f.name) then ReadOutcome(false, UnsupportedFormat, None)
      else match f.content
        case Decoded(text) => ReadOutcome(true, text, Some(f.name))
        case NotUtf8 => ReadOutcome(false, BadEncoding, None)
        case ReadFailed(e) => ReadOutcome(false, ReadErrorPrefix + e, None)
  }

  /** An accepted upload's name ends in ".md" or ".txt", in any case. */
  lemma AcceptedNameEnding(file: UploadedFile)
    requires ReadFileContent(Some(file)).success
    ensures var e := Extension(file.name);
      IsSuffix(e, file.name) && (Lower(e) == ".md" || Lower(e) == ".txt")
  {
    ExtensionShape(file.name);
    assert Lower(Extension(file.name)) in AllowedExtensions;
  }

  // ---------------------------------------------------------------------
  // The radar chart

  /** The polar series of the radar chart: the angles and the radii. */
  datatype RadarSeries = RadarSeries(theta: seq<string>, r: seq<real>)

  /** The two lists of `create_radar_chart`, each with its first element
      appended to close the polygon; `None` where the source's
      `categories[0]` raises on an empty score dictionary. */
  method CloseRadarSeries(categoryScores: seq<(string, real)>) returns (s: Option<RadarSeries>)
    ensures s.None? <==> categoryScores == []
    ensures s.Some? ==>
      && s.value.theta == Keys(categoryScores) + [categoryScores[0].0]
      && s.value.r == Values(categoryScores) + [categoryScores[0].1]
  {
    var categories := Keys(categoryScores);
    var scores := Values(categoryScores);
    if |categories| == 0 {
      return None;
    }
    categories := categories + [categories[0]];
    scores := scores + [scores[0]];
    s := Some(RadarSeries(categories, scores));
  }

  /** The closed polygon: one point more than there are categories, ending
      where it starts, and every category among its angles. */
  lemma RadarSeriesClosed(categoryScores: seq<(string, real)>)
    requires categoryScores != []
    ensures var theta := Keys(categoryScores) + [categoryScores[0].0];
      var r := Values(categoryScores) + [categoryScores[0].1];
      && |theta| == |r| == |categoryScores| + 1
      && theta[0] == theta[|theta| - 1] && r[0] == r[|r| - 1]
      && forall k :: 0 <= k < |categoryScores| ==> categoryScores[k].0 in theta
  {
    var theta := Keys(categoryScores) + [categoryScores[0].0];
    forall k | 0 <= k < |categoryScores| ensures categoryScores[k].0 in theta {
      assert theta[k] == categoryScores[k].0;
    }
  }
}
