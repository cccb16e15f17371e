/**
 * The ATS page: tagging header lines of the backend's markdown report, grouping the
 * tagged report into sections, and validating the form before choosing the endpoint
 * and the fields of the upload.
 */
module AtsResumePage {
  import opened Wrappers
  import opened Text

  /** The marker `cleanMarkdownReport` puts in front of a header line. */
  const HeaderTag := "HEADER:"

  /** A header line ends with a colon, is shorter than 50 characters and is not a bullet. */
  predicate IsHeaderLine(line: string) {
    EndsWith(line, ":") && |line| < 50 && !StartsWith(line, "•")
  }

  function TagLine(line: string): (r: string)
    ensures '\n' !in line ==> '\n' !in r
  {
    if IsHeaderLine(line) then HeaderTag + line else line
  }

  /** Exactly the header lines are changed, and a changed line is the marker followed by the line. */
  lemma TagLineExactly(line: string)
    ensures TagLine(line) != line <==> IsHeaderLine(line)
    ensures IsHeaderLine(line) ==> StartsWith(TagLine(line), HeaderTag) && TagLine(line)[|HeaderTag|..] == line
  {
    if IsHeaderLine(line) {
      assert |TagLine(line)| == |line| + 7;
    }
  }

  /** `lines.map(tag)`. */
  function TagLines(lines: seq<string>): (r: seq<string>)
    ensures |r| == |lines|
    ensures forall k :: 0 <= k < |lines| ==> r[k] == TagLine(lines[k])
  {
    seq(|lines|, k requires 0 <= k < |lines| => TagLine(lines[k]))
  }

  /** One cleaned section: its lines tagged and joined back with newlines. */
  function TagSection(section: string): string {
    Join(TagLines(Split(section, '\n')), "\n")
  }

  /** Tagging keeps the line structure: the tagged section's lines are the tagged lines. */
  lemma TagSectionLines(section: string)
    ensures Split(TagSection(section), '\n') == TagLines(Split(section, '\n'))
  {
    var tagged := TagLines(Split(section, '\n'));
    forall k | 0 <= k < |tagged| ensures '\n' !in tagged[k] {
      assert '\n' !in Split(section, '\n')[k];
    }
    SplitJoin(tagged, '\n');
  }

  /**
   * `cleanMarkdownReport`: nothing for a missing or empty report; otherwise each piece
   * of the report is scrubbed of markdown, trimmed and tagged, and the pieces are
   * joined with blank lines. The regex split and the markdown scrubbing are parameters.
   */
  function CleanMarkdownReport(markdown: Option<string>, splitSections: string -> seq<string>,
                               scrub: string -> string): (r: string)
    ensures markdown.None? || markdown.value == "" ==> r == ""
  {
    if markdown.None? || markdown.value == "" then ""
    else
      var pieces := splitSections(markdown.value);
      Join(seq(|pieces|, i requires 0 <= i < |pieces| => TagSection(Trim(scrub(pieces[i])))), "\n\n")
  }

  /** The loop state of `renderFormattedReport`: finished sections and the open one. */
  datatype Grouping = Grouping(sections: seq<string>, current: string)

  predicate IsTagged(line: string) {
    StartsWith(line, HeaderTag)
  }

  /** One iteration of the `forEach`. */
  function Step(g: Grouping, line: string): Grouping {
    if IsTagged(line) then
      Grouping(if g.current != "" then g.sections + [g.current] else g.sections, line[|HeaderTag|..] + "\n")
    else if Trim(line) != "" then Grouping(g.sections, g.current + line + "\n")
    else g
  }

  /** The loop state after the given lines. */
  function Process(lines: seq<string>): Grouping
    decreases |lines|
  {
    if lines == [] then Grouping([], "")
    else Step(Process(lines[..|lines| - 1]), lines[|lines| - 1])
  }

  /** After the loop: the open section is emitted when it is not empty. */
  function Finish(g: Grouping): seq<string> {
    if g.current != "" then g.sections + [g.current] else g.sections
  }

  function GroupLines(lines: seq<string>): seq<string> {
    Finish(Process(lines))
  }

  /** The grouping loop of `renderFormattedReport`. */
  method GroupReport(reportText: string) returns (sections: seq<string>)
    ensures sections == GroupLines(Split(reportText, '\n'))
  {
    var lines := Split(reportText, '\n');
    var currentSection := "";
    sections := [];
    var i := 0;
    while i < |lines|
      invariant 0 <= i <= |lines|
      invariant Grouping(sections, currentSection) == Process(lines[..i])
    {
      var line := lines[i];
      assert lines[..i + 1][..i] == lines[..i];
      if StartsWith(line, HeaderTag) {
        if currentSection != "" {
          sections := sections + [currentSection];
        }
        currentSection := line[|HeaderTag|..] + "\n";
      } else if Trim(line) != "" {
        currentSection := currentSection + line + "\n";
      }
      i := i + 1;
    }
    if currentSection != "" {
      sections := sections + [currentSection];
    }
    assert lines[..|lines|] == lines;
  }

  /** What a line contributes to the sections: the header text, a kept line, or nothing. */
  function Piece(line: string): string {
    if IsTagged(line) then line[|HeaderTag|..] + "\n"
    else if Trim(line) != "" then line + "\n"
    else ""
  }

  /** The concatenation of strings. */
  function Concat(ss: seq<string>): string
    decreases |ss|
  {
    if ss == [] then "" else Concat(ss[..|ss| - 1]) + ss[|ss| - 1]
  }

  function ConcatPieces(lines: seq<string>): string
    decreases |lines|
  {
    if lines == [] then "" else ConcatPieces(lines[..|lines| - 1]) + Piece(lines[|lines| - 1])
  }

  lemma ConcatAppend(ss: seq<string>, s: string)
    ensures Concat(ss + [s]) == Concat(ss) + s
  {
    assert (ss + [s])[..|ss|] == ss;
  }

  /** Loop invariant behind the next lemma: the pieces so far are the finished sections followed by the open one. */
  lemma {:induction false} ProcessConcat(lines: seq<string>)
    ensures Concat(Process(lines).sections) + Process(lines).current == ConcatPieces(lines)
    decreases |lines|
  {
    if lines != [] {
      var prefix, line := lines[..|lines| - 1], lines[|lines| - 1];
      ProcessConcat(prefix);
      var g := Process(prefix);
      assert Process(lines) == Step(g, line);
      assert ConcatPieces(lines) == ConcatPieces(prefix) + Piece(line);
      if IsTagged(line) {
        if g.current != "" {
          ConcatAppend(g.sections, g.current);
        }
      } else if Trim(line) != "" {
        assert Process(lines).current == g.current + line + "\n";
      }
    }
  }

  /** No text is lost, duplicated or reordered: the sections concatenate to the kept lines, newline-terminated. */
  lemma GroupingKeepsText(lines: seq<string>)
    ensures Concat(GroupLines(lines)) == ConcatPieces(lines)
  {
    ProcessConcat(lines);
    var g := Process(lines);
    if g.current != "" {
      ConcatAppend(g.sections, g.current);
    }
  }

  /** Every emitted section is non-empty. */
  lemma {:induction false} ProcessSectionsNonEmpty(lines: seq<string>)
    ensures forall k :: 0 <= k < |Process(lines).sections| ==> Process(lines).sections[k] != ""
    decreases |lines|
  {
    if lines != [] {
      ProcessSectionsNonEmpty(lines[..|lines| - 1]);
    }
  }

  lemma GroupSectionsNonEmpty(lines: seq<string>)
    ensures forall k :: 0 <= k < |GroupLines(lines)| ==> GroupLines(lines)[k] != ""
  {
    ProcessSectionsNonEmpty(lines);
  }

  /** The number of header lines. */
  function HeaderCount(lines: seq<string>): nat
    decreases |lines|
  {
    if lines == [] then 0
    else HeaderCount(lines[..|lines| - 1]) + (if IsTagged(lines[|lines| - 1]) then 1 else 0)
  }

  /** Some non-blank line comes before the first header line. */
  predicate Leading(lines: seq<string>)
    decreases |lines|
  {
    if lines == [] then false
    else
      var prefix, line := lines[..|lines| - 1], lines[|lines| - 1];
      Leading(prefix) || (HeaderCount(prefix) == 0 && !IsTagged(line) && Trim(line) != "")
  }

  /** Loop invariant for the count: the open section is empty only before any header or kept line. */
  lemma {:induction false} ProcessCount(lines: seq<string>)
    ensures Process(lines).current == "" <==> HeaderCount(lines) == 0 && !Leading(lines)
    ensures |Process(lines).sections| + (if Process(lines).current != "" then 1 else 0)
      == HeaderCount(lines) + (if Leading(lines) then 1 else 0)
    decreases |lines|
  {
    if lines != [] {
      ProcessCount(lines[..|lines| - 1]);
    }
  }

  /** One section per header line, plus one for text before the first header. */
  lemma SectionCount(lines: seq<string>)
    ensures |GroupLines(lines)| == HeaderCount(lines) + (if Leading(lines) then 1 else 0)
  {
    ProcessCount(lines);
  }

  /** How a section is shown: its first line as the heading, the remaining lines as the body. */
  datatype SectionView = SectionView(header: string, content: string)

  function ViewSection(section: string): (v: SectionView)
    ensures '\n' !in v.header
    ensures Trim(section) == if '\n' in Trim(section) then v.header + "\n" + v.content else v.header
  {
    var lines := Split(Trim(section), '\n');
    JoinSplit(Trim(section), '\n');
    SplitSingle(Trim(section));
    SectionView(lines[0], Join(lines[1..], "\n"))
  }

  /** A string splits into more than one line exactly when it holds a newline. */
  lemma {:induction false} SplitSingle(s: string)
    ensures |Split(s, '\n')| > 1 <==> '\n' in s
    decreases |s|
  {
    if s != [] {
      SplitSingle(s[1..]);
      assert '\n' in s <==> s[0] == '\n' || '\n' in s[1..];
    }
  }

  /** The two modes of the page. */
  datatype Mode = WithJobDescription | Quick

  /** The two reasons the page refuses to send a request. */
  datatype FormError = NoResume | NoJobDescription {
    function Text(): string {
      match this
      case NoResume => "Please upload a resume file first."
      case NoJobDescription => "Please provide a job description (text or file) for comparison analysis."
    }
  }

  datatype FormValue<F> = FileField(file: F) | TextField(text: string)

  /** The endpoint and the multipart fields, in the order they are appended. */
  datatype Request<F> = Request(endpoint: string, fields: seq<(string, FormValue<F>)>)

  const FileEndpoint := "http://localhost:8000/analyze-resume-file"
  const QuickEndpoint := "http://localhost:8000/analyze-resume-quick"

  /**
   * What `handleAnalyzeResume` sends, stated case by case: no resume is an error; the
   * job-description mode without a non-blank text or a file is an error; quick mode
   * sends only the resume to the quick endpoint; otherwise the resume goes to the file
   * endpoint with the job-description file if there is one, else with the text as typed.
   */
  function RequestFor<F>(resume: Option<F>, jdFile: Option<F>, jdText: string, mode: Mode): Result<Request<F>, FormError> {
    if resume.None? then Err(NoResume)
    else if mode == WithJobDescription && IsBlank(jdText) && jdFile.None? then Err(NoJobDescription)
    else if mode == Quick then Ok(Request(QuickEndpoint, [("resume_file", FileField(resume.value))]))
    else if jdFile.Some? then
      Ok(Request(FileEndpoint, [("resume_file", FileField(resume.value)), ("job_description_file", FileField(jdFile.value))]))
    else
      Ok(Request(FileEndpoint, [("resume_file", FileField(resume.value)), ("job_description_text", TextField(jdText))]))
  }

  /** The validation and the `FormData` construction of `handleAnalyzeResume`, before the post. */
  method HandleAnalyzeResume<F(==)>(resume: Option<F>, jdFile: Option<F>, jdText: string, mode: Mode)
    returns (outcome: Result<Request<F>, FormError>)
    ensures outcome == RequestFor(resume, jdFile, jdText, mode)
  {
    if resume.None? {
      return Err(NoResume);
    }
    TrimEmptyIffBlank(jdText);
    if mode == WithJobDescription && Trim(jdText) == "" && jdFile.None? {
      return Err(NoJobDescription);
    }
    var formData: seq<(string, FormValue<F>)> := [("resume_file", FileField(resume.value))];
    var endpoint := FileEndpoint;
    if mode == WithJobDescription {
      if jdFile.Some? {
        formData := formData + [("job_description_file", FileField(jdFile.value))];
      } else if Trim(jdText) != "" {
        formData := formData + [("job_description_text", TextField(jdText))];
      }
      assert formData == RequestFor(resume, jdFile, jdText, mode).value.fields;
    } else {
      endpoint := QuickEndpoint;
    }
    outcome := Ok(Request(endpoint, formData));
  }

  /** Every request carries the resume first, and a job-description field exactly in the job-description mode. */
  lemma RequestShape<F>(resume: Option<F>, jdFile: Option<F>, jdText: string, mode: Mode)
    ensures var r := RequestFor(resume, jdFile, jdText, mode);
      (r.Ok? ==> resume.Some? && r.value.fields[0] == ("resume_file", FileField(resume.value)))
      && (r.Ok? ==> (|r.value.fields| == 2 <==> mode == WithJobDescription))
      && (r.Ok? ==> (r.value.endpoint == QuickEndpoint <==> mode == Quick))
      && (r.Ok? && mode == WithJobDescription && jdFile.None? ==> !IsBlank(jdText))
  {
  }
}
