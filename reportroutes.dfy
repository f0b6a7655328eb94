/**
  The two small guards of the Flask routes in tests/hw5/app.py: the report route, which
  refuses an empty prompt and answers with a 500-character summary of the analysis, and
  the download route, which refuses a path outside the report directory before it looks
  for the file. `os.path.abspath` and the file system are parameters.
 */
module ReportRoutes {
  import opened Wrappers
  import opened Strings
  import opened Chunking
  import opened BlockAnalysis

  const SummaryLength: nat := 500

  /** `text[:500] + "..." if len(text) > 500 else text`. */
  function Summary(text: string): string {
    if |text| > SummaryLength then text[..SummaryLength] + "..." else text
  }

  /**
    A text of at most 500 characters is sent whole; a longer one is cut to its first 500
    characters and marked with "...", so a summary never exceeds 503 characters and always
    begins with the text's first `min(500, len)` characters.
   */
  lemma SummaryShape(text: string)
    ensures |text| <= SummaryLength ==> Summary(text) == text
    ensures |text| > SummaryLength ==>
      |Summary(text)| == SummaryLength + 3
      && StartsWith(text, Summary(text)[..SummaryLength])
      && EndsWith(Summary(text), "...")
    ensures |Summary(text)| <= SummaryLength + 3
    ensures StartsWith(Summary(text), text[..Min(SummaryLength, |text|)])
  {
    if |text| <= SummaryLength {
      assert text[..|text|] == text;
    }
  }

  /** The JSON answer of the report route and its status code. */
  datatype ReportReply = ReportReply(code: nat, status: string, message: string, summary: Option<string>, pdf: Option<string>)

  /** Python's truthiness of an optional string: present and not empty. */
  predicate Truthy(s: Option<string>) {
    s.Some? && s.value != ""
  }

  /**
    The report route: an absent or empty prompt is refused before any analysis; otherwise
    the comments are analysed and the answer carries the summary, with the PDF name when
    one was written.
   */
  function ReportRoute(userPrompt: Option<string>, clientReady: bool, csv: Option<seq<Row>>, ai: string -> AiReply,
                       renderCsv: seq<Row> -> string, makePdf: string -> Option<string>): ReportReply
  {
    if !Truthy(userPrompt) then ReportReply(400, "error", "Analysis prompt is required.", None, None)
    else
      var a := Analyze(clientReady, csv, userPrompt.value, ai, renderCsv, makePdf);
      if Truthy(a.pdf) then ReportReply(200, "success", "Report generated successfully.", Some(Summary(a.text)), a.pdf)
      else ReportReply(500, "error", "AI analysis completed, but PDF generation failed.", Some(Summary(a.text)), None)
  }

  /**
    The route answers 400 exactly when the prompt is missing or empty, 200 exactly when a
    PDF was written, and 500 otherwise; past the prompt check it always carries the summary
    of the analysis text. A missing client, a missing CSV or an empty one reach the 500
    answer whose summary is the matching message.
   */
  lemma ReportRouteOutcome(userPrompt: Option<string>, clientReady: bool, csv: Option<seq<Row>>, ai: string -> AiReply,
                           renderCsv: seq<Row> -> string, makePdf: string -> Option<string>)
    ensures var r := ReportRoute(userPrompt, clientReady, csv, ai, renderCsv, makePdf);
      (r.code == 400 <==> !Truthy(userPrompt))
      && (r.code == 400 ==> r.summary == None && r.pdf == None)
      && (Truthy(userPrompt) ==>
            var a := Analyze(clientReady, csv, userPrompt.value, ai, renderCsv, makePdf);
            r.summary == Some(Summary(a.text))
            && (r.code == 200 <==> Truthy(a.pdf))
            && (r.code == 200 ==> r.pdf == a.pdf)
            && (r.code != 200 ==> r.code == 500 && r.pdf == None))
    ensures Truthy(userPrompt) && !clientReady ==>
      ReportRoute(userPrompt, clientReady, csv, ai, renderCsv, makePdf)
        == ReportReply(500, "error", "AI analysis completed, but PDF generation failed.", Some(NoClientMessage), None)
  {
    if Truthy(userPrompt) && !clientReady {
      assert |NoClientMessage| <= SummaryLength;
    }
  }

  // ---------------------------------------------------------------------------
  // download_file

  predicate IsAbsolute(path: string) {
    StartsWith(path, "/")
  }

  /** `os.path.join(directory, name)` on POSIX: an absolute name replaces the directory. */
  function JoinPath(directory: string, name: string): string {
    if IsAbsolute(name) then name
    else if directory == "" || EndsWith(directory, "/") then directory + name
    else directory + "/" + name
  }

  /** What the download route answers. */
  datatype Download = Forbidden | NotFound | SendFile(directory: string, name: string)

  function Code(d: Download): nat {
    match d
    case Forbidden => 403
    case NotFound => 404
    case SendFile(_, _) => 200
  }

  /**
    The download route: the normalised joined path must begin, as a string, with the
    normalised report directory, and only then is the file looked for.
   */
  function DownloadFile(reportDir: string, name: string, absPath: string -> string, pathExists: string -> bool): Download {
    var safePath := JoinPath(reportDir, name);
    if !StartsWith(absPath(safePath), absPath(reportDir)) then Forbidden
    else if !pathExists(safePath) then NotFound
    else SendFile(reportDir, name)
  }

  /**
    403 exactly when the prefix check fails, whether or not the file exists; 404 exactly
    when the check passes and the file is absent; otherwise the file under the report
    directory is sent.
   */
  lemma DownloadOutcome(reportDir: string, name: string, absPath: string -> string, pathExists: string -> bool)
    ensures var d := DownloadFile(reportDir, name, absPath, pathExists);
      var p := JoinPath(reportDir, name);
      (Code(d) == 403 <==> !StartsWith(absPath(p), absPath(reportDir)))
      && (Code(d) == 404 <==> StartsWith(absPath(p), absPath(reportDir)) && !pathExists(p))
      && (Code(d) == 200 <==> d == SendFile(reportDir, name))
      && (Code(d) == 200 <==> StartsWith(absPath(p), absPath(reportDir)) && pathExists(p))
  {
  }

  /**
    The joined path: an absolute name is taken as it stands, and any other name is placed
    under the directory, so that its text ends with the name.
   */
  lemma JoinPathShape(directory: string, name: string)
    ensures IsAbsolute(name) ==> JoinPath(directory, name) == name
    ensures !IsAbsolute(name) ==> StartsWith(JoinPath(directory, name), directory)
    ensures EndsWith(JoinPath(directory, name), name)
  {
    var p := JoinPath(directory, name);
    if !IsAbsolute(name) {
      if directory == "" || EndsWith(directory, "/") {
        assert p[..|directory|] == directory;
        assert p[|p| - |name|..] == name;
      } else {
        assert p[..|directory|] == directory;
        assert p[|p| - |name|..] == name;
      }
    } else {
      assert p[|p| - |name|..] == name;
    }
  }
}
