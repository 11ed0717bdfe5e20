/**
 * The analyzer page (`AnalyzerPage`): the upload filter, the single-file list,
 * the guards and request of the Analyze button, and what the report view shows.
 */
module AnalyzerPage {
  import opened Wrappers
  import opened Strings
  import opened ApiViews

  const PdfType := "application/pdf"
  const DocxType := "application/vnd.openxmlformats-officedocument.wordprocessingml.document"

  /** Five mebibytes. */
  const MaxUploadBytes: nat := 5 * 1024 * 1024

  /** A file chosen in the upload control: its name, MIME type and size in bytes. */
  datatype PickedFile = PickedFile(name: string, mimeType: string, size: nat)

  /** `beforeUpload`'s answer: keep the file in the list (without uploading it) or ignore it. */
  datatype UploadDecision = Keep | Ignore

  /** `beforeUpload`: a PDF or DOCX MIME type, and a size in mebibytes below five. */
  function BeforeUpload(f: PickedFile): UploadDecision {
    if f.mimeType != PdfType && f.mimeType != DocxType then Ignore
    else if !(f.size as real / 1024.0 / 1024.0 < 5.0) then Ignore
    else Keep
  }

  /** A file is kept exactly when it is a PDF or DOCX of fewer than 5,242,880 bytes. */
  lemma BeforeUploadSpec(f: PickedFile)
    ensures BeforeUpload(f) == Keep <==> (f.mimeType == PdfType || f.mimeType == DocxType) && f.size < MaxUploadBytes
  {
    assert f.size as real / 1024.0 / 1024.0 == f.size as real / 1048576.0;
  }

  /** `newFileList.slice(-1)`: the last file, or nothing. */
  function LastOnly(files: seq<PickedFile>): (r: seq<PickedFile>)
    ensures |r| <= 1
    ensures files == [] <==> r == []
    ensures r != [] ==> r[0] == files[|files| - 1]
  {
    if files == [] then [] else [files[|files| - 1]]
  }

  /** The request sent: the one file, the role, and the job description when it is not blank. */
  datatype AnalyzeRequest = AnalyzeRequest(file: PickedFile, jobRole: string, jobDescription: Option<string>)

  /** The server's answer to the request, or a failure to reach it. */
  datatype AnalyzeReply = Answered(response: AnalysisResponse) | NetworkError

  /** The job description field as sent: only when present and not blank after trimming. */
  function SentDescription(field: Option<string>): (r: Option<string>)
    ensures r.Some? <==> field.Some? && Trim(JavaScript, field.value) != ""
    ensures r.Some? ==> r == field
  {
    if field.Some? && Trim(JavaScript, field.value) != "" then field else None
  }

  /** The report kept after a reply: a successful analysis's report, and nothing after any error. */
  function ReportAfter(reply: AnalyzeReply): (r: Option<Report>)
    ensures r.Some? <==> reply.Answered? && reply.response.AnalysisDone?
    ensures r.Some? ==> r.value == reply.response.report
  {
    if reply.Answered? && reply.response.AnalysisDone? then Some(reply.response.report) else None
  }

  datatype AnalyzerState = AnalyzerState(fileList: seq<PickedFile>, report: Option<Report>, isLoading: bool)

  class Analyzer {
    var fileList: seq<PickedFile>
    var report: Option<Report>
    var isLoading: bool

    function State(): AnalyzerState
      reads this
    {
      AnalyzerState(fileList, report, isLoading)
    }

    /** At most one file is ever listed. */
    predicate Valid()
      reads this
    {
      |fileList| <= 1
    }

    constructor()
      ensures State() == AnalyzerState([], None, false)
      ensures Valid()
    {
      fileList := [];
      report := None;
      isLoading := false;
    }

    /** `handleFileChange`: only the newest file stays, and any report is cleared. */
    method HandleFileChange(newFileList: seq<PickedFile>)
      modifies this
      ensures State() == old(State()).(fileList := LastOnly(newFileList), report := None)
      ensures Valid()
    {
      fileList := LastOnly(newFileList);
      if report.Some? {
        report := None;
      }
    }

    /**
     * `handleAnalyze`: without a file or a role nothing is sent and nothing
     * changes; otherwise the request carries the file, the role and the non-blank
     * job description, and afterwards loading is over and the report is the
     * successful reply's, or none.
     */
    method HandleAnalyze(jobRole: Option<string>, jobDescription: Option<string>, reply: AnalyzeReply)
      returns (req: Option<AnalyzeRequest>)
      requires Valid()
      modifies this
      ensures Valid()
      ensures req.Some? ==> fileList == [req.value.file]
      ensures fileList == [] || jobRole.None? || jobRole.value == "" ==>
        req == None && State() == old(State())
      ensures fileList != [] && jobRole.Some? && jobRole.value != "" ==>
        req == Some(AnalyzeRequest(fileList[0], jobRole.value, SentDescription(jobDescription)))
        && State() == old(State()).(report := ReportAfter(reply), isLoading := false)
    {
      if fileList == [] {
        return None;
      }
      if jobRole.None? || jobRole.value == "" {
        return None;
      }
      isLoading := true;
      report := None;
      var description: Option<string> := None;
      if jobDescription.Some? && Trim(JavaScript, jobDescription.value) != "" {
        description := jobDescription;
      }
      req := Some(AnalyzeRequest(fileList[0], jobRole.value, description));
      if reply.Answered? && reply.response.AnalysisDone? {
        report := Some(reply.response.report);
      } else {
        report := None;
      }
      isLoading := false;
    }
  }

  /** The job description the server sees: the form field when it was sent, the empty default otherwise. */
  function ReceivedDescription(sent: Option<string>): string {
    if sent.Some? then sent.value else ""
  }

  /** `slice(0, n)`: the first n items, or all of them when there are fewer. */
  function FirstItems(items: seq<string>, n: nat): (r: seq<string>)
    ensures |r| <= n && |r| <= |items|
    ensures |items| <= n ==> r == items
    ensures forall i :: 0 <= i < |r| ==> r[i] == items[i]
  {
    if |items| <= n then items else items[..n]
  }

  /** The feedback notes shown: at most three. */
  function ShownNotes(r: Report): (shown: seq<string>)
    ensures |shown| <= 3 && |shown| <= |r.qualityFeedback| && shown == r.qualityFeedback[..|shown|]
    ensures |r.qualityFeedback| <= 3 ==> shown == r.qualityFeedback
  {
    FirstItems(r.qualityFeedback, 3)
  }

  /** The missing skills or keywords shown: at most ten. */
  function ShownMissing(missing: seq<string>): (shown: seq<string>)
    ensures |shown| <= 10 && |shown| <= |missing| && shown == missing[..|shown|]
    ensures |missing| <= 10 ==> shown == missing
  {
    FirstItems(missing, 10)
  }

  datatype ScoreColor = Green | Red

  /** The colour of a score: green above 70. */
  function ColorOf(score: int): (c: ScoreColor)
    ensures c == Green <==> score > 70
  {
    if score > 70 then Green else Red
  }

  /** The JD block is shown whenever the report has a JD score, zero included. */
  predicate ShowsJdBlock(r: Report) {
    r.atsScoreJd.Some?
  }

  /**
   * The JD block appears exactly when the job description has text that Python's
   * `strip` keeps: the page sends it only when JavaScript's `trim` leaves something,
   * and the server computes a JD score only when `strip` does. Every character `trim`
   * removes `strip` removes too, so the page's test never hides a description the
   * server would score.
   */
  lemma JdBlockIffDescription(field: Option<string>, r: Report, text: string, jobRole: string, lib: LibraryOutputs)
    requires ReportFits(r, text, jobRole, ReceivedDescription(SentDescription(field)), lib)
    ensures ShowsJdBlock(r) <==> field.Some? && Trim(Python, field.value) != ""
  {
    if field.Some? {
      BlankAcrossRuntimes(field.value);
    }
  }

  /**
   * A description made only of U+001F passes the page's `trim` test and is sent, yet
   * the server strips it to nothing and the report has no JD block.
   */
  lemma SentButUnscored(r: Report, text: string, jobRole: string, lib: LibraryOutputs)
    requires ReportFits(r, text, jobRole, ReceivedDescription(SentDescription(Some("\U{001F}"))), lib)
    ensures SentDescription(Some("\U{001F}")) == Some("\U{001F}")
    ensures !ShowsJdBlock(r)
  {
    UnitSeparatorSent();
  }

  lemma UnitSeparatorSent()
    ensures SentDescription(Some("\U{001F}")) == Some("\U{001F}")
    ensures ReceivedDescription(SentDescription(Some("\U{001F}"))) == "\U{001F}"
    ensures Trim(Python, "\U{001F}") == ""
  {
    BlankAcrossRuntimes("");
  }

  /**
   * A JD score of zero is shown in the JD block while the summary message says
   * nothing about the JD, as when no description was given.
   */
  lemma ZeroJdShownNotMentioned(r: Report, text: string, jobRole: string, jobDescription: string, lib: LibraryOutputs)
    requires ReportFits(r, text, jobRole, jobDescription, lib)
    requires r.atsScoreJd == Some(0)
    ensures ShowsJdBlock(r) && ColorOf(r.atsScoreJd.value) == Red
    ensures r.summary == SummaryMessage(jobRole, lib.roleScore, None)
  {
    SummaryMentionsJd(jobRole, lib.roleScore, r.atsScoreJd);
  }
}
