/** The reader-side file preview of src/components/security/SecureFileViewer.tsx:
    which extension a file has, which preview mode that selects, and the
    viewer state `renderFile` and `renderDocx` leave behind. Fetching, the
    markdown, spreadsheet and DOCX libraries, and URL parsing are inputs. */
module FileViewer {
  import opened Common
  import opened Text

  /** `mimeToExtension` */
  const MimeToExtension: map<string, string> := map[
    "application/pdf" := "pdf",
    "text/plain" := "txt",
    "text/markdown" := "md",
    "text/csv" := "csv",
    "application/msword" := "doc",
    "application/vnd.openxmlformats-officedocument.wordprocessingml.document" := "docx",
    "application/vnd.ms-excel" := "xls",
    "application/vnd.openxmlformats-officedocument.spreadsheetml.sheet" := "xlsx"]

  /** `inferExtension`. `urlPathname` is the `pathname` of
      `new URL(fileUrl, "http://localhost")`, or `None` when that throws. */
  function InferExtension(fileName: Option<string>, fileType: Option<string>, fileUrl: string, urlPathname: Option<string>)
    : (ext: Option<string>)
    ensures fileName.Some? && '.' in fileName.value ==> ext == Some(AfterLast(ToLower(fileName.value), '.'))
    ensures !(fileName.Some? && '.' in fileName.value) && fileType.Some? && fileType.value in MimeToExtension ==>
      ext == Some(MimeToExtension[fileType.value])
    ensures !(fileName.Some? && '.' in fileName.value) && !(fileType.Some? && fileType.value in MimeToExtension)
            && fileUrl != "" && urlPathname.Some? && '.' in urlPathname.value ==>
      ext == Some(AfterLast(ToLower(urlPathname.value), '.'))
    ensures ext.Some? ==> '.' !in ext.value
    ensures ext.None? <==>
      !(fileName.Some? && '.' in fileName.value) && !(fileType.Some? && fileType.value in MimeToExtension)
      && !(fileUrl != "" && urlPathname.Some? && '.' in urlPathname.value)
  {
    DotSurvivesLowering(fileName.GetOr(""));
    DotSurvivesLowering(urlPathname.GetOr(""));
    if fileName.Some? && '.' in ToLower(fileName.value) then Some(AfterLast(ToLower(fileName.value), '.'))
    else if fileType.Some? && fileType.value in MimeToExtension then Some(MimeToExtension[fileType.value])
    else if fileUrl != "" && urlPathname.Some? && '.' in ToLower(urlPathname.value) then
      Some(AfterLast(ToLower(urlPathname.value), '.'))
    else None
  }

  function DotIndex(s: string): (i: nat)
    requires '.' in s
    ensures i < |s| && s[i] == '.'
  {
    if s[0] == '.' then 0 else 1 + DotIndex(s[1..])
  }

  /** Lower-casing keeps the dots where they are. */
  lemma DotSurvivesLowering(s: string)
    ensures '.' in ToLower(s) <==> '.' in s
  {
    if '.' in s {
      var i := DotIndex(s);
      assert ToLower(s)[i] == '.';
    }
    if '.' in ToLower(s) {
      var i := DotIndex(ToLower(s));
      assert s[i] == '.';
    }
  }

  /** An extension taken from a name or a path is the lower-cased text after
      the last dot: a suffix of the lowered text, with no dot and no
      upper-case letter. */
  lemma ExtensionFromNameIsLowerSuffix(name: string)
    requires '.' in name
    ensures |AfterLast(ToLower(name), '.')| < |name|
    ensures ToLower(name)[|name| - |AfterLast(ToLower(name), '.')| - 1] == '.'
    ensures AfterLast(ToLower(name), '.') == ToLower(name)[|name| - |AfterLast(ToLower(name), '.')|..]
    ensures forall i :: 0 <= i < |AfterLast(ToLower(name), '.')| ==> !IsUpperAscii(AfterLast(ToLower(name), '.')[i])
  {
    var j := DotIndex(name);
    LoweredSuffix(ToLower(name), j);
  }

  lemma LoweredSuffix(low: string, j: nat)
    requires j < |low| && low[j] == '.'
    requires forall i :: 0 <= i < |low| ==> !IsUpperAscii(low[i])
    ensures |AfterLast(low, '.')| < |low|
    ensures low[|low| - |AfterLast(low, '.')| - 1] == '.'
    ensures AfterLast(low, '.') == low[|low| - |AfterLast(low, '.')|..]
    ensures forall i :: 0 <= i < |AfterLast(low, '.')| ==> !IsUpperAscii(AfterLast(low, '.')[i])
  {
    AfterLastAtSeparator(low, '.', j);
    var ext := AfterLast(low, '.');
    forall i | 0 <= i < |ext|
      ensures !IsUpperAscii(ext[i])
    {
      assert ext[i] == low[|low| - |ext| + i];
    }
  }

  /** A known MIME type is only consulted when the name has no dot. */
  lemma NameOutranksMime(name: string, fileType: string, fileUrl: string, path: Option<string>)
    requires '.' in name
    ensures InferExtension(Some(name), Some(fileType), fileUrl, path) == InferExtension(Some(name), None, "", None)
  {
  }

  /** The preview a file gets, decided before anything is fetched. */
  datatype Plan = PlanPdf | PlanText | PlanMarkdown | PlanDocx | PlanTable | PlanError(message: string)

  const TextExtensions: seq<string> := ["txt", "text", "log", "csv"]
  const MarkdownExtensions: seq<string> := ["md", "markdown"]
  const LegacyDocMessage: string := "Legacy .doc files cannot be previewed safely. Ask the owner to convert to .docx."

  predicate IsExt(ext: Option<string>, e: string) { ext == Some(e) }

  predicate TypeMentions(fileType: Option<string>, t: string) { fileType.Some? && Contains(fileType.value, t) }

  function UnsupportedMessage(ext: Option<string>): string {
    "Preview not available for " + (if ext.Some? && ext.value != "" then ToUpper(ext.value) else "this file type") + "."
  }

  /** The branch order of `renderFile`: PDF (with a URL), text, markdown,
      DOCX, legacy DOC, spreadsheet, anything else. */
  function RenderPlan(ext: Option<string>, fileType: Option<string>, fileUrl: string): (p: Plan)
    ensures p == PlanPdf <==> (IsExt(ext, "pdf") || TypeMentions(fileType, "pdf")) && fileUrl != ""
    ensures p != PlanPdf && ext.Some? && ext.value in TextExtensions ==> p == PlanText
    ensures p != PlanPdf && ext.Some? && ext.value in MarkdownExtensions ==> p == PlanMarkdown
    ensures p != PlanPdf && IsExt(ext, "docx") ==> p == PlanDocx
    ensures p != PlanPdf && IsExt(ext, "doc") ==> p == PlanError(LegacyDocMessage)
    ensures p == PlanTable <==>
      p != PlanPdf && !(ext.Some? && (ext.value in TextExtensions || ext.value in MarkdownExtensions || ext.value in {"docx", "doc"}))
      && (IsExt(ext, "xls") || IsExt(ext, "xlsx") || TypeMentions(fileType, "spreadsheet"))
    ensures p.PlanError? && p.message != LegacyDocMessage ==> p == PlanError(UnsupportedMessage(ext))
  {
    if (IsExt(ext, "pdf") || TypeMentions(fileType, "pdf")) && fileUrl != "" then PlanPdf
    else if ext.Some? && ext.value in TextExtensions then PlanText
    else if ext.Some? && ext.value in MarkdownExtensions then PlanMarkdown
    else if IsExt(ext, "docx") then PlanDocx
    else if IsExt(ext, "doc") then PlanError(LegacyDocMessage)
    else if IsExt(ext, "xls") || IsExt(ext, "xlsx") || TypeMentions(fileType, "spreadsheet") then PlanTable
    else PlanError(UnsupportedMessage(ext))
  }

  /** A file of an unknown kind is named by its extension in capitals. */
  lemma UnknownExtensionIsNamed(ext: string, fileUrl: string)
    requires ext != "" && ext !in TextExtensions && ext !in MarkdownExtensions
    requires ext !in {"pdf", "docx", "doc", "xls", "xlsx"}
    ensures RenderPlan(Some(ext), None, fileUrl) == PlanError("Preview not available for " + ToUpper(ext) + ".")
  {
  }

  /** A cell of a spreadsheet row. */
  datatype Cell = TextCell(s: string) | NumberCell(n: real) | EmptyCell

  datatype ViewerState =
    | Loading
    | Pdf
    | TextView(content: string)
    | Html(html: string)
    | Table(rows: seq<seq<Cell>>)
    | Docx(version: int)
    | Failed(message: string)

  /** What the awaited steps of a fetching plan produce: the response text,
      the markdown rendered to HTML, the DOCX bytes, the sheet rows, or an
      exception anywhere on the way. */
  datatype Fetch = Fetched(text: string, html: string, docx: seq<int>, rows: seq<seq<Cell>>) | FetchThrew

  const RenderFailure: string := "Unable to render file securely."
  const DocxFailure: string := "Unable to render DOCX securely."

  /** The state `renderFile` settles in. A cancelled render leaves the
      loading state it set first, except for the branches that set their
      state before any `await`. */
  function Settled(p: Plan, fetch: Fetch, cancelled: bool, now: int): (s: ViewerState)
    ensures p == PlanPdf ==> s == Pdf
    ensures p.PlanError? ==> s == Failed(p.message)
    ensures p != PlanPdf && !p.PlanError? && cancelled ==> s == Loading
    ensures p != PlanPdf && !p.PlanError? && !cancelled && fetch.FetchThrew? ==> s == Failed(RenderFailure)
    ensures !cancelled && fetch.Fetched? && p == PlanText ==> s == TextView(fetch.text)
    ensures !cancelled && fetch.Fetched? && p == PlanMarkdown ==> s == Html(fetch.html)
    ensures !cancelled && fetch.Fetched? && p == PlanTable ==> s == Table(fetch.rows)
    ensures !cancelled && fetch.Fetched? && p == PlanDocx ==> s == Docx(now)
    ensures s.TextView? ==> p == PlanText && fetch.Fetched? && s.content == fetch.text
    ensures s.Html? ==> p == PlanMarkdown && fetch.Fetched? && s.html == fetch.html
    ensures s.Table? ==> p == PlanTable && fetch.Fetched? && s.rows == fetch.rows
    ensures s.Docx? ==> p == PlanDocx && fetch.Fetched? && s.version == now
  {
    if p == PlanPdf then Pdf
    else if p.PlanError? then Failed(p.message)
    else if cancelled then Loading
    else if fetch.FetchThrew? then Failed(RenderFailure)
    else if p == PlanText then TextView(fetch.text)
    else if p == PlanMarkdown then Html(fetch.html)
    else if p == PlanDocx then Docx(now)
    else Table(fetch.rows)
  }

  /** The viewer component's state. */
  class Viewer {
    var state: ViewerState
    /** `docxBufferRef.current` */
    var docxBuffer: Option<seq<int>>

    constructor ()
      ensures state == Loading && docxBuffer.None?
    {
      state := Loading;
      docxBuffer := None;
    }

    /** `renderFile` for one set of props; the buffer is kept only for a
        DOCX that was fetched and not cancelled. */
    method RenderFile(fileName: Option<string>, fileType: Option<string>, fileUrl: string, urlPathname: Option<string>,
                      fetch: Fetch, cancelled: bool, now: int)
      modifies this
      ensures var p := RenderPlan(InferExtension(fileName, fileType, fileUrl, urlPathname), fileType, fileUrl);
        && state == Settled(p, fetch, cancelled, now)
        && (p == PlanDocx && !cancelled && fetch.Fetched? ==> docxBuffer == Some(fetch.docx))
        && (!(p == PlanDocx && !cancelled && fetch.Fetched?) ==> docxBuffer == old(docxBuffer))
    {
      state := Loading;
      var ext := InferExtension(fileName, fileType, fileUrl, urlPathname);
      var plan := RenderPlan(ext, fileType, fileUrl);
      if plan == PlanPdf {
        state := Pdf;
      } else if plan.PlanError? {
        state := Failed(plan.message);
      } else if fetch.FetchThrew? {
        if !cancelled {
          state := Failed(RenderFailure);
        }
      } else if !cancelled {
        if plan == PlanText {
          state := TextView(fetch.text);
        } else if plan == PlanMarkdown {
          state := Html(fetch.html);
        } else if plan == PlanDocx {
          docxBuffer := Some(fetch.docx);
          state := Docx(now);
        } else {
          state := Table(fetch.rows);
        }
      }
    }

    /** `renderDocx`, run when the state is in DOCX mode. A failure to load
        the library, or of its rendering, shows the DOCX error unless the
        effect was cancelled; a missing buffer or container stops the render
        after the library has loaded. */
    method RenderDocx(importThrows: bool, containerMounted: bool, renderThrows: bool, cancelled: bool)
      modifies this
      ensures var fails := old(state).Docx? && !cancelled && (importThrows || (docxBuffer.Some? && containerMounted && renderThrows));
        && (fails ==> state == Failed(DocxFailure))
        && (!fails ==> state == old(state))
      ensures docxBuffer == old(docxBuffer)
    {
      if !state.Docx? {
        return;
      }
      if importThrows {
        if !cancelled {
          state := Failed(DocxFailure);
        }
        return;
      }
      if docxBuffer.None? || !containerMounted || cancelled {
        return;
      }
      if renderThrows {
        state := Failed(DocxFailure);
      }
    }
  }
}
