/**
 * The FastAPI backend: the canned assistant replies chosen by keyword, the context it
 * builds from the builder's resume, the upload dispatch on the file suffix, and the two
 * analysis endpoints with their job-description precedence and their status codes.
 * The text extraction libraries and the analysis itself are inputs: an upload carries
 * what its library would extract (or the library's error message), and a successful
 * response records the arguments the analysis is run on.
 */
module ApiServer {
  import opened Wrappers
  import opened Text
  import ResumeModel
  import LiveScore
  import AtsResumePage

  // ---------------------------------------------------------------- assistant

  /** The six canned replies of `get_fallback_response`, in their priority order. */
  datatype Topic = SummaryTips | ExperienceTips | SkillsTips | EducationTips | AtsTips | GeneralHelp {
    /** Position in the if/elif chain. */
    function Rank(): nat {
      match this
      case SummaryTips => 0
      case ExperienceTips => 1
      case SkillsTips => 2
      case EducationTips => 3
      case AtsTips => 4
      case GeneralHelp => 5
    }

    /** The keyword group that selects this reply (the default has none). */
    function Keywords(): seq<string> {
      match this
      case SummaryTips => ["summary", "objective"]
      case ExperienceTips => ["experience", "work"]
      case SkillsTips => ["skills"]
      case EducationTips => ["education"]
      case AtsTips => ["ats", "optimize"]
      case GeneralHelp => []
    }
  }

  /** `any(keyword in message for keyword in keywords)`. */
  predicate MentionsAny(message: string, keywords: seq<string>) {
    exists k | 0 <= k < |keywords| :: Contains(message, keywords[k])
  }

  /**
   * `get_fallback_response`: the first keyword group, in priority order, that the
   * message mentions; the general help text when it mentions none.
   */
  function FallbackTopic(message: string): (r: Topic)
    ensures r != GeneralHelp ==> MentionsAny(message, r.Keywords())
    ensures forall t: Topic :: t.Rank() < r.Rank() ==> !MentionsAny(message, t.Keywords())
  {
    if MentionsAny(message, SummaryTips.Keywords()) then SummaryTips
    else if MentionsAny(message, ExperienceTips.Keywords()) then ExperienceTips
    else if MentionsAny(message, SkillsTips.Keywords()) then SkillsTips
    else if MentionsAny(message, EducationTips.Keywords()) then EducationTips
    else if MentionsAny(message, AtsTips.Keywords()) then AtsTips
    else GeneralHelp
  }

  /** The reply is the highest-priority group mentioned, and the default exactly when no group is. */
  lemma {:induction false} FallbackIsFirstMatch(message: string, t: Topic)
    requires t == GeneralHelp || MentionsAny(message, t.Keywords())
    requires forall u: Topic :: u.Rank() < t.Rank() ==> !MentionsAny(message, u.Keywords())
    ensures FallbackTopic(message) == t
  {
  }

  /** The assistant endpoint lower-cases the message before routing it. */
  function AssistantTopic(message: string): Topic {
    FallbackTopic(ToLower(message))
  }

  /** Routing ignores case: a message and its lower-cased form get the same reply. */
  lemma AssistantTopicIgnoresCase(message: string)
    ensures AssistantTopic(ToLower(message)) == AssistantTopic(message)
  {
    ToLowerIdempotent(message);
  }

  /** What the assistant answers: the model's text, or the canned reply. */
  datatype Reply = ModelText(text: string) | Canned(topic: Topic)

  /**
   * The reply of `/ai-assistant`. `model` is `None` when no API key is configured,
   * `Some(Ok(text))` when the model answered and `Some(Err(_))` when it raised.
   */
  function AssistantReply(message: string, model: Option<Result<string, string>>): (r: Reply)
    ensures r.ModelText? <==> model.Some? && model.value.Ok?
    ensures r.ModelText? ==> r.text == model.value.value
    ensures r.Canned? ==> r.topic == FallbackTopic(ToLower(message))
  {
    if model.Some? && model.value.Ok? then ModelText(model.value.value)
    else Canned(AssistantTopic(message))
  }

  /** The `skills` object of the JSON body; either list may be missing. */
  datatype SkillsPayload = SkillsPayload(technical: Option<seq<string>>, soft: Option<seq<string>>)

  /**
   * The keys of `resume_data` the context reads (`header.fullName`, `summary`, and the
   * lengths of the lists); `otherKeys` records whether the object has any other key,
   * which matters only for whether it is empty.
   */
  datatype ResumePayload = ResumePayload(
    header: Option<Option<string>>,
    summary: Option<string>,
    experience: Option<nat>,
    skills: Option<SkillsPayload>,
    education: Option<nat>,
    projects: Option<nat>,
    otherKeys: bool)

  /** The values interpolated into the context, missing keys replaced by their defaults. */
  datatype ContextInfo = ContextInfo(
    name: string, summary: string, experienceEntries: nat, skillTotal: nat,
    educationEntries: nat, projects: nat)

  function SkillTotal(skills: Option<SkillsPayload>): nat {
    match skills
    case None => 0
    case Some(s) => |s.technical.GetOr([])| + |s.soft.GetOr([])|
  }

  predicate EmptyPayload(p: ResumePayload) {
    p.header.None? && p.summary.None? && p.experience.None? && p.skills.None?
    && p.education.None? && p.projects.None? && !p.otherKeys
  }

  /** The context block: none for a missing or empty `resume_data`. */
  function Context(data: Option<ResumePayload>): (r: Option<ContextInfo>)
    ensures r.None? <==> data.None? || EmptyPayload(data.value)
  {
    if data.None? || EmptyPayload(data.value) then None
    else
      var p := data.value;
      Some(ContextInfo(
        p.header.GetOr(None).GetOr("Not provided"),
        p.summary.GetOr("Not provided"),
        p.experience.GetOr(0),
        SkillTotal(p.skills),
        p.education.GetOr(0),
        p.projects.GetOr(0)))
  }

  /** The JSON the builder page sends as `resume_data`: every key present. */
  function PayloadOf(doc: ResumeModel.ResumeDocument): ResumePayload {
    ResumePayload(
      Some(Some(doc.header.fullName)), Some(doc.summary), Some(|doc.experience|),
      Some(SkillsPayload(Some(doc.skills.technical), Some(doc.skills.soft))),
      Some(|doc.education|), Some(|doc.projects|), true)
  }

  /**
   * For the builder's document the context reports the document's own counts, and the
   * skill total is the one the live score counts; missing skill lists count as empty.
   */
  lemma BuilderContext(doc: ResumeModel.ResumeDocument)
    ensures Context(Some(PayloadOf(doc))) == Some(ContextInfo(
      doc.header.fullName, doc.summary, |doc.experience|, LiveScore.SkillCount(doc),
      |doc.education|, |doc.projects|))
    ensures SkillTotal(Some(SkillsPayload(None, None))) == 0
    ensures forall t: seq<string> :: SkillTotal(Some(SkillsPayload(Some(t), None))) == |t|
  {
  }

  // ---------------------------------------------------------------- uploads

  datatype FileKind = Pdf | Docx | Txt

  /** The handler `extract_text_from_file` picks from the lower-cased file name. */
  function KindOf(filename: string): (r: Option<FileKind>)
    ensures r == Some(Pdf) <==> EndsWith(ToLower(filename), ".pdf")
    ensures r == Some(Docx) <==> EndsWith(ToLower(filename), ".docx")
    ensures r == Some(Txt) <==> EndsWith(ToLower(filename), ".txt")
  {
    var lower := ToLower(filename);
    if EndsWith(lower, ".pdf") then Some(Pdf)
    else if EndsWith(lower, ".docx") then
      assert lower[|lower| - 1] == 'x';
      Some(Docx)
    else if EndsWith(lower, ".txt") then
      assert lower[|lower| - 1] == 't';
      Some(Txt)
    else None
  }

  /** The suffix test ignores case. */
  lemma KindIgnoresCase(filename: string)
    ensures KindOf(ToLower(filename)) == KindOf(filename)
  {
    ToLowerIdempotent(filename);
  }

  /** The error messages of the backend, as structured values; `Text` renders them. */
  datatype ErrorText =
    | ProcessingFailed(kind: FileKind, reason: string)
    | DocxUnavailable
    | UnsupportedType
    | EmptyResume
    | JobDescriptionUnreadable(cause: ErrorText)
    | HttpStatus(status: nat, detail: ErrorText)
    | AnalysisFailed(cause: ErrorText)
  {
    /** `str(e)`; an `HTTPException` renders as its status, a colon and its detail. */
    function Text(): string {
      match this
      case ProcessingFailed(kind, reason) =>
        (match kind
         case Pdf => "Error processing PDF file: "
         case Docx => "Error processing DOCX file: "
         case Txt => "Error processing TXT file: ") + reason
      case DocxUnavailable => "DOCX support not available. Please install python-docx: pip install python-docx"
      case UnsupportedType => "Unsupported file type. Only PDF, DOCX, and TXT files are supported."
      case EmptyResume => "Could not extract text from resume file"
      case JobDescriptionUnreadable(cause) => "Could not extract text from job description file: " + cause.Text()
      case HttpStatus(status, detail) => Decimal(status) + ": " + detail.Text()
      case AnalysisFailed(cause) => "Analysis failed: " + cause.Text()
    }
  }

  /**
   * An uploaded file: its name and what its library extracts from the bytes, or the
   * message of the exception the library raises.
   */
  datatype Upload = Upload(filename: string, content: Result<string, string>)

  /**
   * `extract_text_from_file`: the stripped text for a supported suffix whose library
   * succeeds; every failure is a `ValueError` with the message built here.
   */
  function ExtractText(file: Upload, docxAvailable: bool): (r: Result<string, ErrorText>)
    ensures KindOf(file.filename).None? ==> r == Err(UnsupportedType)
    ensures KindOf(file.filename) == Some(Docx) && !docxAvailable ==> r == Err(DocxUnavailable)
    ensures r.Ok? <==> (KindOf(file.filename).Some? && file.content.Ok?
                        && (KindOf(file.filename) == Some(Docx) ==> docxAvailable))
    ensures r.Ok? ==> r.value == Trim(file.content.value)
    ensures r.Err? && KindOf(file.filename).Some? && file.content.Err? && r.error != DocxUnavailable
      ==> r.error == ProcessingFailed(KindOf(file.filename).value, file.content.error)
  {
    match KindOf(file.filename)
    case None => Err(UnsupportedType)
    case Some(kind) =>
      if kind == Docx && !docxAvailable then Err(DocxUnavailable)
      else if file.content.Err? then Err(ProcessingFailed(kind, file.content.error))
      else Ok(Trim(file.content.value))
  }

  // ---------------------------------------------------------------- endpoints

  /** A response: the analysis run on these arguments, or an HTTP error. */
  datatype Response = Analyzed(resumeText: string, jobDescription: Option<string>)
                    | Failure(status: nat, detail: ErrorText)

  /**
   * `/analyze-resume-file`. Extraction failures are `ValueError`s (400). The
   * `HTTPException`s raised inside the `try` for an empty resume or an unreadable
   * job-description file are not `ValueError`s, so the catch-all turns them into 500s.
   * A job-description file wins over the text; the text is used only when non-blank,
   * and then stripped.
   */
  function FileResponse(resume: Upload, jdText: Option<string>, jdFile: Option<Upload>, docxAvailable: bool): Response {
    var extracted := ExtractText(resume, docxAvailable);
    if extracted.Err? then Failure(400, extracted.error)
    else if IsBlank(extracted.value) then Failure(500, AnalysisFailed(HttpStatus(400, EmptyResume)))
    else if jdFile.Some? then
      var jd := ExtractText(jdFile.value, docxAvailable);
      if jd.Err? then Failure(500, AnalysisFailed(HttpStatus(400, JobDescriptionUnreadable(jd.error))))
      else Analyzed(extracted.value, Some(jd.value))
    else Analyzed(extracted.value, NonBlankStripped(jdText))
  }

  /** The handler, with `job_description` reassigned step by step as in the source. */
  method AnalyzeResumeFile(resume: Upload, jdText: Option<string>, jdFile: Option<Upload>, docxAvailable: bool)
    returns (response: Response)
    ensures response == FileResponse(resume, jdText, jdFile, docxAvailable)
  {
    var extracted := ExtractText(resume, docxAvailable);
    if extracted.Err? {
      return Failure(400, extracted.error);
    }
    var resumeText := extracted.value;
    TrimEmptyIffBlank(resumeText);
    if Trim(resumeText) == "" {
      return Failure(500, AnalysisFailed(HttpStatus(400, EmptyResume)));
    }
    var jobDescription: Option<string> := None;
    if jdFile.Some? {
      var jd := ExtractText(jdFile.value, docxAvailable);
      if jd.Err? {
        return Failure(500, AnalysisFailed(HttpStatus(400, JobDescriptionUnreadable(jd.error))));
      }
      jobDescription := Some(jd.value);
    } else if jdText.Some? && jdText.value != "" {
      TrimEmptyIffBlank(jdText.value);
      if Trim(jdText.value) != "" {
        jobDescription := Some(Trim(jdText.value));
      }
    }
    return Analyzed(resumeText, jobDescription);
  }

  /** `/analyze-resume-quick`: the same checks, and never a job description. */
  function QuickResponse(resume: Upload, docxAvailable: bool): Response {
    var extracted := ExtractText(resume, docxAvailable);
    if extracted.Err? then Failure(400, extracted.error)
    else if IsBlank(extracted.value) then Failure(500, AnalysisFailed(HttpStatus(400, EmptyResume)))
    else Analyzed(extracted.value, None)
  }

  method AnalyzeResumeQuick(resume: Upload, docxAvailable: bool) returns (response: Response)
    ensures response == QuickResponse(resume, docxAvailable)
  {
    var extracted := ExtractText(resume, docxAvailable);
    if extracted.Err? {
      return Failure(400, extracted.error);
    }
    var resumeText := extracted.value;
    TrimEmptyIffBlank(resumeText);
    if Trim(resumeText) == "" {
      return Failure(500, AnalysisFailed(HttpStatus(400, EmptyResume)));
    }
    return Analyzed(resumeText, None);
  }

  /** The quick endpoint answers as the file endpoint does when no job description is sent. */
  lemma QuickIsFileWithoutDescription(resume: Upload, docxAvailable: bool)
    ensures QuickResponse(resume, docxAvailable) == FileResponse(resume, None, None, docxAvailable)
  {
  }

  /**
   * Status 400 exactly when the resume itself cannot be extracted; every other failure,
   * the empty resume included, is a 500 whose detail starts with "Analysis failed".
   */
  lemma {:induction false} FileStatusRule(resume: Upload, jdText: Option<string>, jdFile: Option<Upload>, docxAvailable: bool)
    ensures var r := FileResponse(resume, jdText, jdFile, docxAvailable);
      r.Failure? ==> ((r.status == 400 <==> ExtractText(resume, docxAvailable).Err?)
                      && (r.status == 400 || (r.status == 500 && r.detail.AnalysisFailed?)))
    ensures var r := FileResponse(resume, jdText, jdFile, docxAvailable);
      ExtractText(resume, docxAvailable).Ok? && IsBlank(ExtractText(resume, docxAvailable).value)
      ==> r == Failure(500, AnalysisFailed(HttpStatus(400, EmptyResume)))
  {
  }

  /** A job-description file makes the text irrelevant. */
  lemma FileTakesPrecedence(resume: Upload, text1: Option<string>, text2: Option<string>, jd: Upload, docxAvailable: bool)
    ensures FileResponse(resume, text1, Some(jd), docxAvailable) == FileResponse(resume, text2, Some(jd), docxAvailable)
  {
  }

  /**
   * Without a file, the analysis gets a job description exactly when the text is not
   * blank, and then gets it stripped.
   */
  lemma BlankTextMeansNoDescription(resume: Upload, jdText: Option<string>, docxAvailable: bool)
    requires ExtractText(resume, docxAvailable).Ok? && !IsBlank(ExtractText(resume, docxAvailable).value)
    ensures var r := FileResponse(resume, jdText, None, docxAvailable);
      r.Analyzed? && (r.jobDescription.Some? <==> jdText.Some? && !IsBlank(jdText.value))
      && (r.jobDescription.Some? ==> r.jobDescription.value == Trim(jdText.value))
  {
  }

  // ---------------------------------------------------------------- page to backend

  /** A form field with this name (the page sends each name once). */
  function Field(fields: seq<(string, AtsResumePage.FormValue<Upload>)>, name: string): (r: Option<AtsResumePage.FormValue<Upload>>)
    ensures r.Some? ==> exists k | 0 <= k < |fields| :: fields[k] == (name, r.value)
    ensures r.None? <==> forall k | 0 <= k < |fields| :: fields[k].0 != name
    ensures r.Some? ==> exists k | 0 <= k < |fields| :: fields[k] == (name, r.value) && forall j | 0 <= j < k :: fields[j].0 != name
    decreases |fields|
  {
    if fields == [] then None
    else if fields[0].0 == name then Some(fields[0].1)
    else Field(fields[1..], name)
  }

  /** A field FastAPI binds to a `File(...)` parameter. */
  function FileParam(fields: seq<(string, AtsResumePage.FormValue<Upload>)>, name: string): Option<Upload> {
    match Field(fields, name)
    case Some(FileField(f)) => Some(f)
    case _ => None
  }

  /** A field FastAPI binds to a `Form(...)` parameter. */
  function TextParam(fields: seq<(string, AtsResumePage.FormValue<Upload>)>, name: string): Option<string> {
    match Field(fields, name)
    case Some(TextField(t)) => Some(t)
    case _ => None
  }

  /** The backend's answer to a page request; no answer for an unknown endpoint or a missing resume. */
  function Receive(request: AtsResumePage.Request<Upload>, docxAvailable: bool): Option<Response> {
    var resume := FileParam(request.fields, "resume_file");
    if resume.None? then None
    else if request.endpoint == AtsResumePage.QuickEndpoint then Some(QuickResponse(resume.value, docxAvailable))
    else if request.endpoint == AtsResumePage.FileEndpoint then
      Some(FileResponse(resume.value, TextParam(request.fields, "job_description_text"),
                        FileParam(request.fields, "job_description_file"), docxAvailable))
    else None
  }

  /** The fields of a job-description request carrying a file. */
  lemma FileFormParams(resume: Upload, jd: Upload)
    ensures var fields := [("resume_file", AtsResumePage.FileField(resume)), ("job_description_file", AtsResumePage.FileField(jd))];
      FileParam(fields, "resume_file") == Some(resume)
      && FileParam(fields, "job_description_file") == Some(jd)
      && TextParam(fields, "job_description_text") == None
  {
    var fields := [("resume_file", AtsResumePage.FileField(resume)), ("job_description_file", AtsResumePage.FileField(jd))];
    assert fields[1..][1..] == [];
    assert "resume_file" != "job_description_file" && "resume_file" != "job_description_text";
    assert "job_description_file" != "job_description_text" by {
      assert "job_description_file"[16] != "job_description_text"[16];
    }
    assert Field(fields[1..], "job_description_file") == Some(AtsResumePage.FileField(jd));
  }

  /** The fields of a job-description request carrying text. */
  lemma TextFormParams(resume: Upload, text: string)
    ensures var fields := [("resume_file", AtsResumePage.FileField(resume)), ("job_description_text", AtsResumePage.TextField(text))];
      FileParam(fields, "resume_file") == Some(resume)
      && FileParam(fields, "job_description_file") == None
      && TextParam(fields, "job_description_text") == Some(text)
  {
    var fields := [("resume_file", AtsResumePage.FileField(resume)), ("job_description_text", AtsResumePage.TextField(text))];
    assert fields[1..][1..] == [];
    assert "resume_file" != "job_description_file" && "resume_file" != "job_description_text";
    assert "job_description_file" != "job_description_text" by {
      assert "job_description_file"[16] != "job_description_text"[16];
    }
    assert Field(fields[1..], "job_description_text") == Some(AtsResumePage.TextField(text));
  }

  lemma EndpointsDiffer()
    ensures AtsResumePage.QuickEndpoint != AtsResumePage.FileEndpoint
  {
    assert AtsResumePage.QuickEndpoint[|AtsResumePage.QuickEndpoint| - 1] != AtsResumePage.FileEndpoint[|AtsResumePage.FileEndpoint| - 1];
  }

  /**
   * Every request the page sends in the job-description mode reaches the analysis with a
   * job description (the file's text, else the typed text stripped), once both uploads
   * extract; a quick request reaches it with none.
   */
  lemma {:induction false} PageRequestsReachAnalysis(resume: Upload, jdFile: Option<Upload>, jdText: string, mode: AtsResumePage.Mode, docxAvailable: bool)
    requires AtsResumePage.RequestFor(Some(resume), jdFile, jdText, mode).Ok?
    requires ExtractText(resume, docxAvailable).Ok? && !IsBlank(ExtractText(resume, docxAvailable).value)
    requires jdFile.Some? ==> ExtractText(jdFile.value, docxAvailable).Ok?
    ensures var r := Receive(AtsResumePage.RequestFor(Some(resume), jdFile, jdText, mode).value, docxAvailable);
      r.Some? && r.value.Analyzed? && r.value.resumeText == ExtractText(resume, docxAvailable).value
      && (mode == AtsResumePage.Quick ==> r.value.jobDescription.None?)
      && (mode == AtsResumePage.WithJobDescription && jdFile.Some? ==>
            r.value.jobDescription == Some(ExtractText(jdFile.value, docxAvailable).value))
      && (mode == AtsResumePage.WithJobDescription && jdFile.None? ==>
            r.value.jobDescription == Some(Trim(jdText)))
  {
    var req := AtsResumePage.RequestFor(Some(resume), jdFile, jdText, mode).value;
    EndpointsDiffer();
    if mode == AtsResumePage.Quick {
      assert req.fields == [("resume_file", AtsResumePage.FileField(resume))];
      assert FileParam(req.fields, "resume_file") == Some(resume);
    } else if jdFile.Some? {
      assert req.fields == [("resume_file", AtsResumePage.FileField(resume)), ("job_description_file", AtsResumePage.FileField(jdFile.value))];
      FileFormParams(resume, jdFile.value);
    } else {
      assert req.fields == [("resume_file", AtsResumePage.FileField(resume)), ("job_description_text", AtsResumePage.TextField(jdText))];
      TextFormParams(resume, jdText);
      assert !IsBlank(jdText);
    }
  }
}
