/**
 * The backend's comprehensive ATS scorer and the assembly of its analysis result.
 * The AI reply and the two regex-based detectors are inputs: the model receives the
 * detected section flags, the list of formatting issues and the parsed AI record.
 */
module AtsAnalyzer {
  import opened Wrappers
  import opened Text
  import opened Seqs
  import opened SectionFlags

  /** The keyword part of the AI reply. */
  datatype KeywordAnalysis = KeywordAnalysis(
    matchedKeywords: Option<seq<string>>,
    missingKeywords: Option<seq<string>>,
    technicalKeywords: Option<seq<string>>,
    keywordMatchPercentage: Option<int>)

  /**
   * The parsed AI reply; a key the reply lacks is `None`. `content_strength` is a
   * dictionary, so a missing one and an empty one both read as the empty map.
   */
  datatype AiAnalysis = AiAnalysis(
    atsScore: Option<int>,
    contentStrength: map<string, int>,
    improvementSuggestions: Option<seq<string>>,
    keywordAnalysis: Option<KeywordAnalysis>)

  /** The result of `detect_resume_sections`: eight flags. */
  datatype Sections = Sections(
    contactInfo: bool, summary: bool, skills: bool, workExperience: bool,
    education: bool, certifications: bool, projects: bool, languages: bool)
  {
    /** `sections.items()`, in the dictionary's insertion order. */
    function Items(): (flags: Flags)
      ensures |flags| == 8
    {
      [("Contact Info", contactInfo), ("Summary / Objective", summary), ("Skills", skills),
       ("Work Experience", workExperience), ("Education", education),
       ("Certifications", certifications), ("Projects", projects), ("Languages", languages)]
    }

    /** How many of Contact Info, Work Experience, Skills and Education are present. */
    function PresentEssential(): (p: nat)
      ensures p <= 4
    {
      (if contactInfo then 1 else 0) + (if workExperience then 1 else 0)
      + (if skills then 1 else 0) + (if education then 1 else 0)
    }
  }

  /** The AI score after capping; a missing score counts as 60. */
  function AdjustAiScore(aiScore: Option<int>): (r: int)
    ensures r <= 75
    ensures aiScore.None? ==> r == 60
    ensures aiScore.Some? && aiScore.value > 90 ==> r == 75
    ensures aiScore.Some? && 80 < aiScore.value <= 90 ==> r == 70
    ensures aiScore.Some? && aiScore.value <= 80 ==> r == (if aiScore.value <= 65 then aiScore.value else 65)
  {
    var s := aiScore.GetOr(60);
    if s > 90 then 75
    else if s > 80 then Min(s - 10, 70)
    else Min(s, 65)
  }

  function Min(a: int, b: int): int {
    if a <= b then a else b
  }

  function Max(a: int, b: int): int {
    if a >= b then a else b
  }

  /** Three points per essential section present. */
  function SectionBonus(sections: Sections): (r: nat)
    ensures r == 3 * sections.PresentEssential() && r <= 12
  {
    sections.PresentEssential() * 3
  }

  /** Eight points per essential section missing. */
  function MissingSectionPenalty(sections: Sections): (r: nat)
    ensures r == 8 * (4 - sections.PresentEssential()) && r <= 32
  {
    (4 - sections.PresentEssential()) * 8
  }

  /** Five points per formatting issue, at most 25. */
  function FormattingPenalty(issues: seq<string>): (r: nat)
    ensures r <= 25 && r <= 5 * |issues|
    ensures |issues| < 5 ==> r == 5 * |issues|
    ensures |issues| >= 5 ==> r == 25
  {
    Min(|issues| * 5, 25)
  }

  /** `d.get(key, 0)`. */
  function GetOrZero(d: map<string, int>, key: string): int {
    if key in d then d[key] else 0
  }

  /** The content bonus from the AI's content-strength record. */
  function ContentBonus(contentStrength: map<string, int>): (r: nat)
    ensures r == 0 || r == 2 || r == 5
    ensures contentStrength == map[] ==> r == 0
    ensures r == 5 <==> (contentStrength != map[]
      && GetOrZero(contentStrength, "action_verbs_score") >= 8
      && GetOrZero(contentStrength, "quantified_achievements") >= 5)
    ensures r == 2 <==> (contentStrength != map[]
      && !(GetOrZero(contentStrength, "action_verbs_score") >= 8 && GetOrZero(contentStrength, "quantified_achievements") >= 5)
      && (GetOrZero(contentStrength, "action_verbs_score") >= 7 || GetOrZero(contentStrength, "quantified_achievements") >= 3))
  {
    if contentStrength == map[] then 0
    else
      var verbs := GetOrZero(contentStrength, "action_verbs_score");
      var achievements := GetOrZero(contentStrength, "quantified_achievements");
      if verbs >= 8 && achievements >= 5 then 5
      else if verbs >= 7 || achievements >= 3 then 2
      else 0
  }

  /** The penalty for the number of AI suggestions. */
  function SuggestionPenalty(suggestionCount: nat): (r: nat)
    ensures r <= 15
    ensures suggestionCount > 6 <==> r == 15
    ensures 4 < suggestionCount <= 6 <==> r == 10
    ensures 2 < suggestionCount <= 4 <==> r == 5
    ensures suggestionCount <= 2 <==> r == 0
  {
    if suggestionCount > 6 then 15
    else if suggestionCount > 4 then 10
    else if suggestionCount > 2 then 5
    else 0
  }

  /** The AI's suggestions, or none when the reply lacks them. */
  function AiSuggestions(ai: AiAnalysis): seq<string> {
    ai.improvementSuggestions.GetOr([])
  }

  /** The dictionary `calculate_comprehensive_score` returns. */
  datatype ScoreBreakdown = ScoreBreakdown(
    totalScore: int, aiBaseScore: int, sectionBonus: int, formattingPenalty: int,
    contentBonus: int, suggestionPenalty: int, missingSectionPenalty: int)

  /** The signed sum of the six components before clamping. */
  function Unclamped(b: ScoreBreakdown): int {
    b.aiBaseScore + b.sectionBonus + b.contentBonus
    - b.formattingPenalty - b.suggestionPenalty - b.missingSectionPenalty
  }

  /** `max(15, min(95, x))`. */
  function Clamp(x: int): (r: int)
    ensures 15 <= r <= 95
    ensures 15 <= x <= 95 ==> r == x
    ensures x < 15 ==> r == 15
    ensures x > 95 ==> r == 95
  {
    Max(15, Min(95, x))
  }

  /** `calculate_comprehensive_score`: the clamped total and each component it used. */
  function ComprehensiveScore(ai: AiAnalysis, sections: Sections, issues: seq<string>): (b: ScoreBreakdown)
    ensures b.aiBaseScore == AdjustAiScore(ai.atsScore)
    ensures b.sectionBonus == 3 * sections.PresentEssential()
    ensures b.missingSectionPenalty == 8 * (4 - sections.PresentEssential())
    ensures b.formattingPenalty == FormattingPenalty(issues)
    ensures b.contentBonus == ContentBonus(ai.contentStrength)
    ensures b.suggestionPenalty == SuggestionPenalty(|AiSuggestions(ai)|)
    ensures b.totalScore == Clamp(Unclamped(b))
    ensures 15 <= b.totalScore <= 95
  {
    var base := AdjustAiScore(ai.atsScore);
    var section := SectionBonus(sections);
    var formatting := FormattingPenalty(issues);
    var content := ContentBonus(ai.contentStrength);
    var suggestion := SuggestionPenalty(|AiSuggestions(ai)|);
    var missing := MissingSectionPenalty(sections);
    var total := Max(15, Min(95, base + section + content - formatting - suggestion - missing));
    ScoreBreakdown(total, base, section, formatting, content, suggestion, missing)
  }

  /** The upper clamp never binds: the components add up to at most 75 + 12 + 5 = 92. */
  lemma ScoreAtMost92(ai: AiAnalysis, sections: Sections, issues: seq<string>)
    ensures ComprehensiveScore(ai, sections, issues).totalScore <= 92
    ensures Unclamped(ComprehensiveScore(ai, sections, issues)) <= 92
  {
  }

  /** Each essential section present is worth 11 points before clamping: 3 gained and 8 not lost. */
  lemma EssentialSectionWorth11(ai: AiAnalysis, sections: Sections, issues: seq<string>)
    ensures Unclamped(ComprehensiveScore(ai, sections, issues))
      == AdjustAiScore(ai.atsScore) - 32 + 11 * sections.PresentEssential()
         + ContentBonus(ai.contentStrength) - FormattingPenalty(issues) - SuggestionPenalty(|AiSuggestions(ai)|)
  {
  }

  /** Detecting more essential sections never lowers the score. */
  lemma MoreSectionsNeverLower(ai: AiAnalysis, a: Sections, b: Sections, issues: seq<string>)
    requires a.PresentEssential() <= b.PresentEssential()
    ensures ComprehensiveScore(ai, a, issues).totalScore <= ComprehensiveScore(ai, b, issues).totalScore
  {
    EssentialSectionWorth11(ai, a, issues);
    EssentialSectionWorth11(ai, b, issues);
  }

  /** More formatting issues never raise the score. */
  lemma MoreIssuesNeverRaise(ai: AiAnalysis, sections: Sections, a: seq<string>, b: seq<string>)
    requires |a| <= |b|
    ensures ComprehensiveScore(ai, sections, b).totalScore <= ComprehensiveScore(ai, sections, a).totalScore
  {
    assert FormattingPenalty(a) <= FormattingPenalty(b);
  }

  /** The four score bands of the report. */
  datatype Category = Excellent | Good | Fair | NeedsImprovement {
    function Name(): string {
      match this
      case Excellent => "Excellent"
      case Good => "Good"
      case Fair => "Fair"
      case NeedsImprovement => "Needs Improvement"
    }

    function Emoji(): string {
      match this
      case Excellent => "\U{1F7E2}"
      case Good => "\U{1F7E1}"
      case Fair => "\U{1F7E0}"
      case NeedsImprovement => "\U{1F534}"
    }

    /** The band's position, best first. */
    function Rank(): nat {
      match this
      case Excellent => 0
      case Good => 1
      case Fair => 2
      case NeedsImprovement => 3
    }
  }

  /** The category by threshold: 80, 65 and 45. */
  function ScoreCategory(score: int): (c: Category)
    ensures c == Excellent <==> score >= 80
    ensures c == Good <==> 65 <= score < 80
    ensures c == Fair <==> 45 <= score < 65
    ensures c == NeedsImprovement <==> score < 45
  {
    if score >= 80 then Excellent
    else if score >= 65 then Good
    else if score >= 45 then Fair
    else NeedsImprovement
  }

  /** A higher score never gets a worse category. */
  lemma CategoryMonotone(a: int, b: int)
    requires a <= b
    ensures ScoreCategory(b).Rank() <= ScoreCategory(a).Rank()
  {
  }

  const ContactSuggestion := "Add complete contact information including email and phone number"
  const SkillsSuggestion := "Include a dedicated Skills section with relevant technical and soft skills"
  const FormattingSuggestion := "Address formatting issues to improve ATS compatibility"

  /** The suggestion naming at most the first three missing sections. */
  function MissingSectionsSuggestion(missing: seq<string>): string {
    "Consider adding missing sections: " + Join(Take(missing, 3), ", ")
  }

  /**
   * The suggestion list before truncation, as three parts: the contact suggestion in
   * front when contact info is missing, then the AI's suggestions, then the section and
   * formatting suggestions in their fixed order.
   */
  function SuggestionList(aiSuggestions: seq<string>, sections: Sections, issues: seq<string>): seq<string> {
    var missing := MissingNames(sections.Items());
    (if sections.contactInfo then [] else [ContactSuggestion])
    + aiSuggestions
    + (if sections.skills then [] else [SkillsSuggestion])
    + (if missing == [] then [] else [MissingSectionsSuggestion(missing)])
    + (if issues == [] then [] else [FormattingSuggestion])
  }

  /** Steps 6 of `analyzeResume`: `insert(0, …)` and three conditional `append`s on the AI's list. */
  method AssembleSuggestions(aiSuggestions: seq<string>, sections: Sections, issues: seq<string>)
    returns (suggestions: seq<string>)
    ensures suggestions == SuggestionList(aiSuggestions, sections, issues)
  {
    var missing := MissingNames(sections.Items());
    suggestions := aiSuggestions;
    if !sections.contactInfo {
      suggestions := [ContactSuggestion] + suggestions;
    }
    if !sections.skills {
      suggestions := suggestions + [SkillsSuggestion];
    }
    if missing != [] {
      suggestions := suggestions + [MissingSectionsSuggestion(missing)];
    }
    if issues != [] {
      suggestions := suggestions + [FormattingSuggestion];
    }
  }

  /** What the section checks add to the AI's list, bounded in size and placed as described. */
  lemma SuggestionListShape(aiSuggestions: seq<string>, sections: Sections, issues: seq<string>)
    ensures var r := SuggestionList(aiSuggestions, sections, issues);
      var front := if sections.contactInfo then 0 else 1;
      |aiSuggestions| + front <= |r| <= |aiSuggestions| + 4
      && r[front..front + |aiSuggestions|] == aiSuggestions
      && (!sections.contactInfo ==> r[0] == ContactSuggestion)
      && (issues != [] ==> r[|r| - 1] == FormattingSuggestion)
  {
  }

  /** A missing contact section places its suggestion first, so it survives truncation to ten. */
  lemma ContactSuggestionSurvives(aiSuggestions: seq<string>, sections: Sections, issues: seq<string>)
    requires !sections.contactInfo
    ensures Take(SuggestionList(aiSuggestions, sections, issues), 10)[0] == ContactSuggestion
  {
  }

  /** With every section detected and no formatting issue, only the AI's suggestions remain. */
  lemma NothingAddedWhenComplete(aiSuggestions: seq<string>, sections: Sections, issues: seq<string>)
    requires sections == Sections(true, true, true, true, true, true, true, true) && issues == []
    ensures SuggestionList(aiSuggestions, sections, issues) == aiSuggestions
  {
    assert MissingNames(sections.Items()) == [];
  }

  /** `detectedSections`: the eight names split by their flags. */
  datatype DetectedSections = DetectedSections(present: seq<string>, missing: seq<string>)

  function Detected(sections: Sections): (d: DetectedSections)
    ensures |d.present| + |d.missing| == 8
    ensures d.present == PresentNames(sections.Items()) && d.missing == MissingNames(sections.Items())
  {
    PartitionSizes(sections.Items());
    DetectedSections(PresentNames(sections.Items()), MissingNames(sections.Items()))
  }

  /** The part of the result `analyzeResume` derives itself, rather than echoing the AI. */
  datatype AnalysisResult = AnalysisResult(
    totalScore: int,
    category: Category,
    hasJobDescription: bool,
    detectedSections: DetectedSections,
    formattingIssues: seq<string>,
    matchedKeywords: seq<string>,
    missingKeywords: seq<string>,
    keywordMatchPercentage: Option<int>,
    suggestions: seq<string>,
    scoreBreakdown: ScoreBreakdown)

  /** Python truthiness of the optional job description. */
  predicate Truthy(jobDescription: Option<string>) {
    jobDescription.Some? && jobDescription.value != ""
  }

  /** `analyzeResume` from the detector results and the AI reply onward. */
  method AnalyzeResume(sections: Sections, issues: seq<string>, ai: AiAnalysis, jobDescription: Option<string>)
    returns (result: AnalysisResult)
    ensures result.scoreBreakdown == ComprehensiveScore(ai, sections, issues)
    ensures result.totalScore == result.scoreBreakdown.totalScore && 15 <= result.totalScore <= 95
    ensures result.category == ScoreCategory(result.totalScore)
    ensures result.hasJobDescription <==> jobDescription.Some?
    ensures result.detectedSections == Detected(sections)
    ensures result.formattingIssues == issues
    ensures result.suggestions == Take(SuggestionList(AiSuggestions(ai), sections, issues), 10)
    ensures |result.suggestions| <= 10 && |result.matchedKeywords| <= 15 && |result.missingKeywords| <= 10
    ensures !Truthy(jobDescription) ==> result.missingKeywords == [] && result.keywordMatchPercentage.None?
  {
    var scoring := ComprehensiveScore(ai, sections, issues);
    var totalScore := scoring.totalScore;
    var category := ScoreCategory(totalScore);
    var suggestions := AssembleSuggestions(AiSuggestions(ai), sections, issues);
    var keywords := ai.keywordAnalysis.GetOr(KeywordAnalysis(None, None, None, None));
    var matched, missing, percentage;
    if Truthy(jobDescription) {
      matched := keywords.matchedKeywords.GetOr([]);
      missing := keywords.missingKeywords.GetOr([]);
      percentage := Some(keywords.keywordMatchPercentage.GetOr(0));
    } else {
      matched := keywords.technicalKeywords.GetOr([]);
      missing := [];
      percentage := None;
    }
    result := AnalysisResult(
      totalScore, category, jobDescription.Some?, Detected(sections), issues,
      Take(matched, 15), Take(missing, 10), percentage, Take(suggestions, 10), scoring);
  }
}
