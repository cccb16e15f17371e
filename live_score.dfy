/**
 * The builder's live ATS score: six capped sub-scores over the resume document,
 * summed and rounded with `Math.round`, and an ordered list of feedback items.
 */
module LiveScore {
  import opened Text
  import opened Seqs
  import opened ResumeModel

  datatype Severity = Warning | Info

  /** The six messages the scorer can emit. */
  datatype Message = CompleteContact | GoodSummary | ExpandSummary | AddSummary | AddExperience | AddSkills {
    /** The text shown on the page. */
    function Text(): string {
      match this
      case CompleteContact => "Complete your contact information for better ATS compatibility"
      case GoodSummary => "Good summary! Consider adding more specific achievements"
      case ExpandSummary => "Expand your summary to 2-3 sentences for better impact"
      case AddSummary => "Add a professional summary to introduce yourself"
      case AddExperience => "Add at least one work experience with detailed descriptions"
      case AddSkills => "Add more relevant skills to increase keyword matching"
    }
  }

  datatype FeedbackItem = FeedbackItem(severity: Severity, message: Message)

  const ContactWarning := FeedbackItem(Warning, CompleteContact)
  const GoodSummaryInfo := FeedbackItem(Info, GoodSummary)
  const ShortSummaryWarning := FeedbackItem(Warning, ExpandSummary)
  const NoSummaryWarning := FeedbackItem(Warning, AddSummary)
  const ExperienceWarning := FeedbackItem(Warning, AddExperience)
  const SkillsInfo := FeedbackItem(Info, AddSkills)

  /** `Math.min` on numbers. */
  function MinReal(a: real, b: real): real {
    if a <= b then a else b
  }

  /** JavaScript's `Math.round`: the nearest integer, halves rounded up. */
  function RoundHalfUp(x: real): (r: int)
    ensures r as real - 0.5 <= x < r as real + 0.5
  {
    (x + 0.5).Floor
  }

  /** A field counts as filled when it is not blank after `trim()`. */
  predicate Filled(s: string) {
    Trim(s) != ""
  }

  /** The number of the six header fields that are filled. */
  function FilledHeaderFields(h: Header): (n: nat)
    ensures n <= 6
  {
    |Filter(HeaderValues(h), Filled)|
  }

  predicate ValidExperience(e: Experience) {
    Filled(e.title) && Filled(e.company) && Filled(e.description)
  }

  predicate ValidEducation(e: Education) {
    Filled(e.degree) && Filled(e.institution)
  }

  predicate ValidProject(p: Project) {
    Filled(p.title) && Filled(p.description)
  }

  function ValidExperienceCount(doc: ResumeDocument): nat {
    |Filter(doc.experience, ValidExperience)|
  }

  function ValidEducationCount(doc: ResumeDocument): nat {
    |Filter(doc.education, ValidEducation)|
  }

  function ValidProjectCount(doc: ResumeDocument): nat {
    |Filter(doc.projects, ValidProject)|
  }

  function SkillCount(doc: ResumeDocument): nat {
    |doc.skills.technical| + |doc.skills.soft|
  }

  function SummaryLength(doc: ResumeDocument): nat {
    |Trim(doc.summary)|
  }

  /** Header completeness, out of 20: a third of 10 points per filled field (the cap never binds). */
  function HeaderPoints(doc: ResumeDocument): (r: real)
    ensures r == FilledHeaderFields(doc.header) as real * 10.0 / 3.0
    ensures 0.0 <= r <= 20.0
  {
    MinReal(20.0, (FilledHeaderFields(doc.header) as real / 6.0) * 20.0)
  }

  /** Summary quality, out of 15, by trimmed length band. */
  function SummaryPoints(doc: ResumeDocument): real {
    var len := SummaryLength(doc);
    if len > 100 then 15.0
    else if len > 50 then 10.0
    else if len > 0 then 5.0
    else 0.0
  }

  /** Experience depth, out of 30: 15 points per valid entry. */
  function ExperiencePoints(doc: ResumeDocument): (r: real)
    ensures r == if ValidExperienceCount(doc) >= 2 then 30.0 else ValidExperienceCount(doc) as real * 15.0
  {
    MinReal(30.0, ValidExperienceCount(doc) as real * 15.0)
  }

  /** Skills breadth, out of 15: 1.5 points per skill. */
  function SkillsPoints(doc: ResumeDocument): (r: real)
    ensures r == if SkillCount(doc) >= 10 then 15.0 else SkillCount(doc) as real * 1.5
  {
    MinReal(15.0, SkillCount(doc) as real * 1.5)
  }

  /** Education validity, out of 10: one valid entry earns it all. */
  function EducationPoints(doc: ResumeDocument): (r: real)
    ensures r == if ValidEducationCount(doc) >= 1 then 10.0 else 0.0
  {
    MinReal(10.0, ValidEducationCount(doc) as real * 10.0)
  }

  /** Projects validity, out of 10: 5 points per valid entry. */
  function ProjectPoints(doc: ResumeDocument): (r: real)
    ensures r == if ValidProjectCount(doc) >= 2 then 10.0 else ValidProjectCount(doc) as real * 5.0
  {
    MinReal(10.0, ValidProjectCount(doc) as real * 5.0)
  }

  /** The unrounded sum of the six sub-scores. */
  function RawTotal(doc: ResumeDocument): real {
    HeaderPoints(doc) + SummaryPoints(doc) + ExperiencePoints(doc)
    + SkillsPoints(doc) + EducationPoints(doc) + ProjectPoints(doc)
  }

  /** The score the page stores: `Math.round` of the sum. */
  function Score(doc: ResumeDocument): int {
    RoundHalfUp(RawTotal(doc))
  }

  function HeaderFeedback(doc: ResumeDocument): seq<FeedbackItem> {
    if FilledHeaderFields(doc.header) < 4 then [ContactWarning] else []
  }

  function SummaryFeedback(doc: ResumeDocument): seq<FeedbackItem> {
    var len := SummaryLength(doc);
    if len > 100 then []
    else if len > 50 then [GoodSummaryInfo]
    else if len > 0 then [ShortSummaryWarning]
    else [NoSummaryWarning]
  }

  function ExperienceFeedback(doc: ResumeDocument): seq<FeedbackItem> {
    if ValidExperienceCount(doc) == 0 then [ExperienceWarning] else []
  }

  function SkillsFeedback(doc: ResumeDocument): seq<FeedbackItem> {
    if SkillCount(doc) < 8 then [SkillsInfo] else []
  }

  /** The feedback list: header, summary, experience, skills rules in that order. */
  function Feedback(doc: ResumeDocument): seq<FeedbackItem> {
    HeaderFeedback(doc) + SummaryFeedback(doc) + ExperienceFeedback(doc) + SkillsFeedback(doc)
  }

  /**
   * `calculateLiveScore`: accumulates the sub-scores into `score` and pushes each rule's
   * feedback as it is evaluated, then rounds.
   */
  method CalculateLiveScore(doc: ResumeDocument) returns (atsScore: int, feedback: seq<FeedbackItem>)
    ensures atsScore == Score(doc) && 0 <= atsScore <= 100
    ensures feedback == Feedback(doc)
  {
    var score: real := 0.0;
    feedback := [];

    var headerFields := FilledHeaderFields(doc.header);
    score := score + MinReal(20.0, (headerFields as real / 6.0) * 20.0);
    if headerFields < 4 {
      feedback := feedback + [ContactWarning];
    }
    assert score == HeaderPoints(doc) && feedback == HeaderFeedback(doc);

    var summaryLength := |Trim(doc.summary)|;
    if summaryLength > 100 {
      score := score + 15.0;
    } else if summaryLength > 50 {
      score := score + 10.0;
      feedback := feedback + [GoodSummaryInfo];
    } else if summaryLength > 0 {
      score := score + 5.0;
      feedback := feedback + [ShortSummaryWarning];
    } else {
      feedback := feedback + [NoSummaryWarning];
    }
    assert score == HeaderPoints(doc) + SummaryPoints(doc);
    assert feedback == HeaderFeedback(doc) + SummaryFeedback(doc);

    var validExperience := |Filter(doc.experience, ValidExperience)|;
    score := score + MinReal(30.0, validExperience as real * 15.0);
    if validExperience == 0 {
      feedback := feedback + [ExperienceWarning];
    }
    assert feedback == HeaderFeedback(doc) + SummaryFeedback(doc) + ExperienceFeedback(doc);

    var totalSkills := |doc.skills.technical| + |doc.skills.soft|;
    score := score + MinReal(15.0, totalSkills as real * 1.5);
    if totalSkills < 8 {
      feedback := feedback + [SkillsInfo];
    }

    var validEducation := |Filter(doc.education, ValidEducation)|;
    score := score + MinReal(10.0, validEducation as real * 10.0);

    var validProjects := |Filter(doc.projects, ValidProject)|;
    score := score + MinReal(10.0, validProjects as real * 5.0);

    assert score == RawTotal(doc);
    ScoreBounds(doc);
    atsScore := RoundHalfUp(score);
  }

  /** The six quantities the scorer reads from a document. */
  predicate SameMeasures(a: ResumeDocument, b: ResumeDocument) {
    FilledHeaderFields(a.header) == FilledHeaderFields(b.header)
    && SummaryLength(a) == SummaryLength(b)
    && ValidExperienceCount(a) == ValidExperienceCount(b)
    && SkillCount(a) == SkillCount(b)
    && ValidEducationCount(a) == ValidEducationCount(b)
    && ValidProjectCount(a) == ValidProjectCount(b)
  }

  /** The score and the feedback depend on the document only through those six quantities. */
  lemma MeasuresDetermineResult(a: ResumeDocument, b: ResumeDocument)
    requires SameMeasures(a, b)
    ensures Score(a) == Score(b) && Feedback(a) == Feedback(b)
  {
    assert HeaderPoints(a) == HeaderPoints(b) && SummaryPoints(a) == SummaryPoints(b);
    assert ExperiencePoints(a) == ExperiencePoints(b) && SkillsPoints(a) == SkillsPoints(b);
    assert EducationPoints(a) == EducationPoints(b) && ProjectPoints(a) == ProjectPoints(b);
    assert RawTotal(a) == RawTotal(b);
    assert HeaderFeedback(a) == HeaderFeedback(b) && SummaryFeedback(a) == SummaryFeedback(b);
    assert ExperienceFeedback(a) == ExperienceFeedback(b) && SkillsFeedback(a) == SkillsFeedback(b);
  }

  /** The stored score always lies in [0, 100]. */
  lemma ScoreBounds(doc: ResumeDocument)
    ensures 0.0 <= RawTotal(doc) <= 100.0
    ensures 0 <= Score(doc) <= 100
  {
  }

  /** The contact warning is given exactly when fewer than four header fields are filled. */
  lemma ContactWarningRule(doc: ResumeDocument)
    ensures ContactWarning in Feedback(doc) <==> FilledHeaderFields(doc.header) < 4
  {
  }

  /**
   * Each summary band earns its points and emits exactly its feedback item,
   * and no other summary item is in the list.
   */
  lemma SummaryBands(doc: ResumeDocument)
    ensures SummaryLength(doc) > 100 ==>
      SummaryPoints(doc) == 15.0 && SummaryItems(Feedback(doc)) == []
    ensures 50 < SummaryLength(doc) <= 100 ==>
      SummaryPoints(doc) == 10.0 && SummaryItems(Feedback(doc)) == [GoodSummaryInfo]
    ensures 0 < SummaryLength(doc) <= 50 ==>
      SummaryPoints(doc) == 5.0 && SummaryItems(Feedback(doc)) == [ShortSummaryWarning]
    ensures SummaryLength(doc) == 0 ==>
      SummaryPoints(doc) == 0.0 && SummaryItems(Feedback(doc)) == [NoSummaryWarning]
  {
    var fb := Feedback(doc);
    FilterAppend(HeaderFeedback(doc) + SummaryFeedback(doc) + ExperienceFeedback(doc), SkillsFeedback(doc), IsSummaryItem);
    FilterAppend(HeaderFeedback(doc) + SummaryFeedback(doc), ExperienceFeedback(doc), IsSummaryItem);
    FilterAppend(HeaderFeedback(doc), SummaryFeedback(doc), IsSummaryItem);
  }

  predicate IsSummaryItem(f: FeedbackItem) {
    f == GoodSummaryInfo || f == ShortSummaryWarning || f == NoSummaryWarning
  }

  /** The summary items of a feedback list, in order. */
  function SummaryItems(fb: seq<FeedbackItem>): seq<FeedbackItem> {
    Filter(fb, IsSummaryItem)
  }

  /** The experience warning is given exactly when no entry has title, company and description. */
  lemma ExperienceWarningRule(doc: ResumeDocument)
    ensures ExperienceWarning in Feedback(doc) <==> ValidExperienceCount(doc) == 0
    ensures ExperiencePoints(doc) == 0.0 <==> ValidExperienceCount(doc) == 0
  {
  }

  /** The skills hint is given exactly when there are fewer than eight skills. */
  lemma SkillsInfoRule(doc: ResumeDocument)
    ensures SkillsInfo in Feedback(doc) <==> SkillCount(doc) < 8
  {
  }

  /** Education and projects never produce feedback: every item comes from the other four rules. */
  lemma OnlyFourRulesGiveFeedback(doc: ResumeDocument)
    ensures forall f :: f in Feedback(doc) ==>
      f == ContactWarning || IsSummaryItem(f) || f == ExperienceWarning || f == SkillsInfo
  {
  }

  /** The rank of an item in the fixed order header, summary, experience, skills. */
  function Rank(f: FeedbackItem): nat {
    if f == ContactWarning then 0
    else if IsSummaryItem(f) then 1
    else if f == ExperienceWarning then 2
    else 3
  }

  /** At most four items, strictly ordered header, summary, experience, skills. */
  lemma FeedbackOrder(doc: ResumeDocument)
    ensures |Feedback(doc)| <= 4
    ensures forall i, j :: 0 <= i < j < |Feedback(doc)| ==> Rank(Feedback(doc)[i]) < Rank(Feedback(doc)[j])
  {
    var h, s, e, k := HeaderFeedback(doc), SummaryFeedback(doc), ExperienceFeedback(doc), SkillsFeedback(doc);
    assert forall f :: f in h ==> Rank(f) == 0;
    assert forall f :: f in s ==> Rank(f) == 1;
    assert forall f :: f in e ==> Rank(f) == 2;
    assert forall f :: f in k ==> Rank(f) == 3;
    var fb := h + s + e + k;
    forall i, j | 0 <= i < j < |fb| ensures Rank(fb[i]) < Rank(fb[j]) {
      assert RankAt(fb, h, s, e, k, i) && RankAt(fb, h, s, e, k, j);
    }
  }

  /** Where index `i` of `h + s + e + k` falls decides its rank. */
  predicate RankAt(fb: seq<FeedbackItem>, h: seq<FeedbackItem>, s: seq<FeedbackItem>,
                   e: seq<FeedbackItem>, k: seq<FeedbackItem>, i: int)
    requires fb == h + s + e + k && 0 <= i < |fb|
    requires |h| <= 1 && |s| <= 1 && |e| <= 1
  {
    (i < |h| ==> fb[i] in h) &&
    (|h| <= i < |h| + |s| ==> fb[i] in s) &&
    (|h| + |s| <= i < |h| + |s| + |e| ==> fb[i] in e) &&
    (|h| + |s| + |e| <= i ==> fb[i] in k)
  }

  /** More filled header fields never lower the header sub-score. */
  lemma HeaderMonotone(a: ResumeDocument, b: ResumeDocument)
    requires FilledHeaderFields(a.header) <= FilledHeaderFields(b.header)
    ensures HeaderPoints(a) <= HeaderPoints(b)
  {
  }

  /** The freshly mounted builder scores 0 with all four rules firing, in order. */
  lemma InitialDocumentScore()
    ensures Score(InitialResume()) == 0
    ensures Feedback(InitialResume()) == [ContactWarning, NoSummaryWarning, ExperienceWarning, SkillsInfo]
  {
    var doc := InitialResume();
    assert Trim("") == "";
    assert Filter(HeaderValues(doc.header), Filled) == [];
    assert !ValidExperience(BlankExperience);
    assert Filter(doc.experience, ValidExperience) == [];
    assert !ValidEducation(BlankEducation);
    assert Filter(doc.education, ValidEducation) == [];
    assert !ValidProject(BlankProject);
    assert Filter(doc.projects, ValidProject) == [];
  }

  /**
   * A complete document: six header fields, a summary over 100 characters, one valid
   * experience, ten skills, one valid education and one valid project score
   * 20 + 15 + 15 + 15 + 10 + 5 = 80 with no feedback.
   */
  lemma CompleteDocumentScore(doc: ResumeDocument)
    requires FilledHeaderFields(doc.header) == 6
    requires SummaryLength(doc) > 100
    requires ValidExperienceCount(doc) == 1 && SkillCount(doc) == 10
    requires ValidEducationCount(doc) == 1 && ValidProjectCount(doc) == 1
    ensures RawTotal(doc) == 80.0 && Score(doc) == 80
    ensures Feedback(doc) == []
  {
  }
}
