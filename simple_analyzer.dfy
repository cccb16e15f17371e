/**
 * The dependency-free analyser of the simplified backend: substring detection of fixed
 * keyword tables in the lower-cased resume, a bounded score and its category, the
 * split of the job description's keywords into found and missing, section checks and
 * an ordered, capped suggestion list.
 */
module SimpleAnalyzer {
  import opened Wrappers
  import opened Text
  import opened Seqs
  import opened SectionFlags
  import AtsAnalyzer

  const TechnicalKeywords: seq<string> := [
    "python", "java", "javascript", "sql", "html", "css", "react", "node", "api",
    "database", "git", "docker", "kubernetes", "aws", "azure", "mongodb", "postgresql",
    "django", "flask", "vue", "angular", "typescript", "machine learning", "data science",
    "artificial intelligence", "blockchain"]

  const SoftSkills: seq<string> := [
    "communication", "leadership", "teamwork", "problem-solving", "analytical", "creative",
    "project management", "time management", "adaptability", "critical thinking"]

  /** `[kw for kw in table if kw in text]`. */
  function FoundKeywords(table: seq<string>, text: string): (r: seq<string>)
    ensures |r| <= |table|
  {
    Filter(table, (kw: string) => Contains(text, kw))
  }

  /** The found keywords are exactly the table's keywords occurring in the text, in table order. */
  lemma FoundKeywordsExactly(table: seq<string>, text: string, kw: string)
    ensures kw in FoundKeywords(table, text) <==> kw in table && Contains(text, kw)
    ensures IsSubsequence(FoundKeywords(table, text), table)
  {
    FilterMembership(table, (k: string) => Contains(text, k), kw);
    FilterIsSubsequence(table, (k: string) => Contains(text, k));
  }

  function Min(a: int, b: int): int {
    if a <= b then a else b
  }

  /** `60 + min(5·technical, 25) + min(3·soft, 15)`. */
  function TotalScore(technical: nat, soft: nat): (r: int)
    ensures 60 <= r <= 100
    ensures r == 100 <==> technical >= 5 && soft >= 5
    ensures r == 60 + (if technical >= 5 then 25 else 5 * technical) + (if soft >= 5 then 15 else 3 * soft)
  {
    60 + Min(technical * 5, 25) + Min(soft * 3, 15)
  }

  /** Finding more keywords never lowers the score. */
  lemma TotalScoreMonotone(t1: nat, s1: nat, t2: nat, s2: nat)
    requires t1 <= t2 && s1 <= s2
    ensures TotalScore(t1, s1) <= TotalScore(t2, s2)
  {
  }

  /** The category by threshold: 85, 70 and 55. */
  function Category(score: int): (c: AtsAnalyzer.Category)
    ensures c == AtsAnalyzer.Excellent <==> score >= 85
    ensures c == AtsAnalyzer.Good <==> 70 <= score < 85
    ensures c == AtsAnalyzer.Fair <==> 55 <= score < 70
    ensures c == AtsAnalyzer.NeedsImprovement <==> score < 55
  {
    if score >= 85 then AtsAnalyzer.Excellent
    else if score >= 70 then AtsAnalyzer.Good
    else if score >= 55 then AtsAnalyzer.Fair
    else AtsAnalyzer.NeedsImprovement
  }

  /** The score is at least 60, so this analyser never answers "Needs Improvement". */
  lemma NeverNeedsImprovement(technical: nat, soft: nat)
    ensures Category(TotalScore(technical, soft)) != AtsAnalyzer.NeedsImprovement
  {
  }

  /** Python's `round` of `num / den`: the nearest integer, halves to the even one. */
  function RoundHalfEven(num: nat, den: nat): (r: nat)
    requires den > 0
    ensures num / den <= r <= num / den + 1
  {
    var q, rem := num / den, num % den;
    if 2 * rem < den then q
    else if 2 * rem > den then q + 1
    else if q % 2 == 0 then q
    else q + 1
  }

  /** The rounded value is within half of the exact ratio, and even on a tie. */
  lemma RoundHalfEvenNearest(num: nat, den: nat)
    requires den > 0
    ensures var r := RoundHalfEven(num, den);
      2 * (r * den - num) <= den && 2 * (num - r * den) <= den
      && (2 * (r * den - num) == den || 2 * (num - r * den) == den ==> r % 2 == 0)
  {
    var q, rem := num / den, num % den;
    assert num == q * den + rem;
    assert (q + 1) * den == q * den + den;
  }

  /** `a ≤ b` is kept by multiplying both sides by a natural number. */
  lemma {:induction false} MulMonotone(a: nat, b: nat, c: nat)
    requires a <= b
    ensures a * c <= b * c
    decreases c
  {
    if c > 0 {
      MulMonotone(a, b, c - 1);
      assert a * c == a * (c - 1) + a;
      assert b * c == b * (c - 1) + b;
    }
  }

  /** A ratio of at most one rounds to at most 100 percent. */
  lemma PercentAtMost100(found: nat, all: nat)
    requires 0 < all && found <= all
    ensures RoundHalfEven(100 * found, all) <= 100
  {
    var num := 100 * found;
    RoundHalfEvenNearest(num, all);
    var r := RoundHalfEven(num, all);
    MulMonotone(found, all, 100);
    assert 2 * (r * all) <= 201 * all;
    if r >= 101 {
      MulMonotone(101, r, all);
    }
  }

  /** Python truthiness of the optional job description. */
  predicate Truthy(jobDescription: Option<string>) {
    jobDescription.Some? && jobDescription.value != ""
  }

  /** The keywords the job description mentions: technical ones, then soft ones. */
  function JobKeywords(technical: seq<string>, softSkills: seq<string>, jobDescription: string): seq<string> {
    var lower := ToLower(jobDescription);
    FoundKeywords(technical, lower) + FoundKeywords(softSkills, lower)
  }

  /** The job-matching block: found keywords, missing keywords and the match percentage. */
  datatype JobMatch = JobMatch(found: seq<string>, missing: seq<string>, percentage: nat)

  /** Splitting a non-empty keyword list by occurrence in the resume. */
  function SplitKeywords(all: seq<string>, resumeLower: string): (m: JobMatch)
    requires all != []
    ensures m.percentage <= 100
  {
    var found := Filter(all, (kw: string) => Contains(resumeLower, kw));
    var missing := Filter(all, (kw: string) => !Contains(resumeLower, kw));
    PercentAtMost100(|found|, |all|);
    JobMatch(found, missing, RoundHalfEven(100 * |found|, |all|))
  }

  function MatchJob(technical: seq<string>, softSkills: seq<string>, jobDescription: Option<string>,
                    resumeLower: string): (m: JobMatch)
    ensures !Truthy(jobDescription) ==> m == JobMatch([], [], 0)
    ensures Truthy(jobDescription) && JobKeywords(technical, softSkills, jobDescription.value) == [] ==>
      m == JobMatch([], [], 0)
    ensures Truthy(jobDescription) && JobKeywords(technical, softSkills, jobDescription.value) != [] ==>
      m == SplitKeywords(JobKeywords(technical, softSkills, jobDescription.value), resumeLower)
    ensures m.percentage <= 100
  {
    if !Truthy(jobDescription) then JobMatch([], [], 0)
    else
      var all := JobKeywords(technical, softSkills, jobDescription.value);
      if all == [] then JobMatch([], [], 0) else SplitKeywords(all, resumeLower)
  }

  /** Each of two complementary filters keeps what the other drops. */
  lemma {:induction false} ComplementarySizes<T>(s: seq<T>, p: T -> bool, q: T -> bool)
    requires forall x :: q(x) == !p(x)
    ensures |Filter(s, p)| + |Filter(s, q)| == |s|
    decreases |s|
  {
    if s != [] {
      ComplementarySizes(s[1..], p, q);
    }
  }

  /** The job's keywords split exactly into found and missing, and the percentage is their rounded ratio. */
  lemma JobMatchSplit(all: seq<string>, resumeLower: string, kw: string)
    requires all != []
    ensures var m := SplitKeywords(all, resumeLower);
      |m.found| + |m.missing| == |all|
      && (kw in m.found <==> kw in all && Contains(resumeLower, kw))
      && (kw in m.missing <==> kw in all && !Contains(resumeLower, kw))
      && m.percentage == RoundHalfEven(100 * |m.found|, |all|)
  {
    var p := (k: string) => Contains(resumeLower, k);
    var q := (k: string) => !Contains(resumeLower, k);
    ComplementarySizes(all, p, q);
    FilterMembership(all, p, kw);
    FilterMembership(all, q, kw);
  }

  /** `keywordMatchPercentage`: ten points per keyword found, at most 100. */
  function KeywordMatchPercentage(technical: nat, soft: nat): (r: nat)
    ensures r <= 100 && (r == 100 <==> technical + soft >= 10)
    ensures technical + soft < 10 ==> r == 10 * (technical + soft)
  {
    Min((technical + soft) * 10, 100)
  }

  /** `any(kw in text for kw in keywords)`. */
  predicate ContainsAny(text: string, keywords: seq<string>) {
    exists i | 0 <= i < |keywords| :: Contains(text, keywords[i])
  }

  /** `resume_sections_check.items()`, in the dictionary's insertion order. */
  function SectionChecks(resumeLower: string, foundTechnical: nat): (flags: Flags)
    ensures |flags| == 8
  {
    [("Contact Info", ContainsAny(resumeLower, ["email", "phone", "@", "linkedin"])),
     ("Summary/Objective", ContainsAny(resumeLower, ["summary", "objective", "profile"])),
     ("Skills", Contains(resumeLower, "skills") || foundTechnical > 2),
     ("Education", ContainsAny(resumeLower, ["education", "degree", "university", "college"])),
     ("Work Experience", ContainsAny(resumeLower, ["experience", "work", "job", "position", "role"])),
     ("Projects", Contains(resumeLower, "project")),
     ("Certifications", ContainsAny(resumeLower, ["certification", "certified", "certificate"])),
     ("Languages", ContainsAny(resumeLower, ["language", "fluent", "native"]))]
  }

  /** The Skills section counts as present whenever more than two technical keywords were found. */
  lemma ManyTechnicalMeansSkills(resumeLower: string, foundTechnical: nat)
    requires foundTechnical > 2
    ensures "Skills" in PresentNames(SectionChecks(resumeLower, foundTechnical))
  {
    PartitionMembership(SectionChecks(resumeLower, foundTechnical), "Skills");
    assert SectionChecks(resumeLower, foundTechnical)[2] == ("Skills", true);
  }

  /** The seven suggestions this analyser can make. */
  datatype Suggestion =
    | AddJobSkills(keywords: seq<string>)
    | MoreTechnical | MoreSoft | ExpandResume
    | AddSections(names: seq<string>)
    | ActionVerbs | Quantified
  {
    /** The text returned to the client. */
    function Text(): string {
      match this
      case AddJobSkills(keywords) => "Add missing job-relevant skills: " + Join(keywords, ", ")
      case MoreTechnical => "Add more technical skills relevant to your field"
      case MoreSoft => "Include soft skills like communication and leadership"
      case ExpandResume => "Consider expanding your resume with more details about your experience"
      case AddSections(names) => "Consider adding missing sections: " + Join(names, ", ")
      case ActionVerbs => "Use action verbs to describe your achievements"
      case Quantified => "Include quantified achievements (numbers, percentages)"
    }
  }

  /** `[s]` when `c` holds, otherwise nothing. */
  function When(c: bool, s: Suggestion): seq<Suggestion> {
    if c then [s] else []
  }

  /** The suggestions that depend on the analysis, in their fixed order. */
  function ConditionalSuggestions(resumeLength: nat, technical: nat, soft: nat,
                                  jobMissing: seq<string>, missingSections: seq<string>): seq<Suggestion> {
    When(jobMissing != [], AddJobSkills(Take(jobMissing, 3)))
    + When(technical < 3, MoreTechnical)
    + When(soft < 2, MoreSoft)
    + When(resumeLength < 500, ExpandResume)
    + When(missingSections != [], AddSections(Take(missingSections, 2)))
  }

  /**
   * The `suggestions` list: one conditional `append` after another, then the two that
   * are always added.
   */
  method BuildSuggestions(resumeLength: nat, technical: nat, soft: nat, jobDescriptionTruthy: bool,
                          jobMissing: seq<string>, missingSections: seq<string>)
    returns (suggestions: seq<Suggestion>)
    ensures suggestions == ConditionalSuggestions(resumeLength, technical, soft,
      if jobDescriptionTruthy then jobMissing else [], missingSections)
      + [ActionVerbs, Quantified]
  {
    ghost var used := if jobDescriptionTruthy then jobMissing else [];
    suggestions := [];
    suggestions := AppendWhen(suggestions, jobDescriptionTruthy && jobMissing != [], AddJobSkills(Take(jobMissing, 3)));
    assert suggestions == When(used != [], AddJobSkills(Take(used, 3)));
    suggestions := AppendWhen(suggestions, technical < 3, MoreTechnical);
    suggestions := AppendWhen(suggestions, soft < 2, MoreSoft);
    suggestions := AppendWhen(suggestions, resumeLength < 500, ExpandResume);
    suggestions := AppendWhen(suggestions, missingSections != [], AddSections(Take(missingSections, 2)));
    suggestions := suggestions + [ActionVerbs];
    suggestions := suggestions + [Quantified];
  }

  /** One `if …: suggestions.append(…)`. */
  method AppendWhen(suggestions: seq<Suggestion>, condition: bool, s: Suggestion) returns (r: seq<Suggestion>)
    ensures r == suggestions + When(condition, s)
  {
    r := suggestions;
    if condition {
      r := r + [s];
    }
  }

  /** At most five conditional suggestions fire, none of them one of the two fixed ones. */
  lemma ConditionalShape(resumeLength: nat, technical: nat, soft: nat,
                         jobMissing: seq<string>, missingSections: seq<string>)
    ensures var c := ConditionalSuggestions(resumeLength, technical, soft, jobMissing, missingSections);
      |c| <= 5 && ActionVerbs !in c && Quantified !in c
  {
    var w1 := When(jobMissing != [], AddJobSkills(Take(jobMissing, 3)));
    var w2 := When(technical < 3, MoreTechnical);
    var w3 := When(soft < 2, MoreSoft);
    var w4 := When(resumeLength < 500, ExpandResume);
    var w5 := When(missingSections != [], AddSections(Take(missingSections, 2)));
    assert |w1| <= 1 && |w2| <= 1 && |w3| <= 1 && |w4| <= 1 && |w5| <= 1;
    var c2 := w1 + w2;
    assert ActionVerbs !in c2 && Quantified !in c2;
    var c3 := c2 + w3;
    assert ActionVerbs !in c3 && Quantified !in c3;
    var c4 := c3 + w4;
    assert ActionVerbs !in c4 && Quantified !in c4;
  }

  /**
   * Of the returned five, the action-verbs suggestion is there exactly when at most
   * four conditional suggestions fired.
   */
  lemma ActionVerbsReturned(conditional: seq<Suggestion>)
    requires ActionVerbs !in conditional
    ensures var returned := Take(conditional + [ActionVerbs, Quantified], 5);
      2 <= |returned| <= 5 && (ActionVerbs in returned <==> |conditional| <= 4)
  {
    var all := conditional + [ActionVerbs, Quantified];
    var returned := Take(all, 5);
    if |conditional| <= 4 {
      assert returned[|conditional|] == ActionVerbs;
    } else {
      assert returned == conditional[..5];
    }
  }

  /** `detectedSections`: the eight checked names split by their flags. */
  datatype DetectedSections = DetectedSections(present: seq<string>, missing: seq<string>)

  datatype SimpleResult = SimpleResult(
    totalScore: int,
    category: AtsAnalyzer.Category,
    jobMatchPercentage: nat,
    matchedKeywords: seq<string>,
    keywordMatchPercentage: nat,
    jobKeywordsFound: seq<string>,
    jobKeywordsMissing: seq<string>,
    suggestions: seq<Suggestion>,
    detectedSections: DetectedSections,
    hasJobDescription: bool)

  /** `simple_ats_analysis` without its markdown report, over keyword tables `technical` and `softSkills`. */
  method AnalyzeWith(technical: seq<string>, softSkills: seq<string>, resumeText: string, jobDescription: Option<string>)
    returns (result: SimpleResult)
    ensures var lower := ToLower(resumeText);
      var tech := FoundKeywords(technical, lower);
      var soft := FoundKeywords(softSkills, lower);
      var job := MatchJob(technical, softSkills, jobDescription, lower);
      var checks := SectionChecks(lower, |tech|);
      result.totalScore == TotalScore(|tech|, |soft|)
      && result.category == Category(result.totalScore)
      && result.matchedKeywords == tech + soft
      && result.keywordMatchPercentage == KeywordMatchPercentage(|tech|, |soft|)
      && result.jobKeywordsFound == job.found && result.jobKeywordsMissing == job.missing
      && result.jobMatchPercentage == job.percentage
      && result.detectedSections == DetectedSections(PresentNames(checks), MissingNames(checks))
      && result.suggestions == Take(ConditionalSuggestions(|resumeText|, |tech|, |soft|, job.missing,
           MissingNames(checks)) + [ActionVerbs, Quantified], 5)
      && (result.hasJobDescription <==> jobDescription.Some?)
    ensures 60 <= result.totalScore <= 100 && 1 <= |result.suggestions| <= 5
  {
    var lower := ToLower(resumeText);
    var tech := FoundKeywords(technical, lower);
    var soft := FoundKeywords(softSkills, lower);
    var job := MatchJob(technical, softSkills, jobDescription, lower);
    var total := TotalScore(|tech|, |soft|);
    var checks := SectionChecks(lower, |tech|);
    var present, missing := PresentNames(checks), MissingNames(checks);
    var suggestions := BuildSuggestions(|resumeText|, |tech|, |soft|, Truthy(jobDescription), job.missing, missing);
    result := SimpleResult(
      total, Category(total), job.percentage, tech + soft, KeywordMatchPercentage(|tech|, |soft|),
      job.found, job.missing, Take(suggestions, 5), DetectedSections(present, missing),
      jobDescription.Some?);
  }

  /** `simple_ats_analysis` with its own two keyword tables. */
  method SimpleAtsAnalysis(resumeText: string, jobDescription: Option<string>) returns (result: SimpleResult)
    ensures var lower := ToLower(resumeText);
      var tech := FoundKeywords(TechnicalKeywords, lower);
      var soft := FoundKeywords(SoftSkills, lower);
      result.totalScore == TotalScore(|tech|, |soft|) && result.matchedKeywords == tech + soft
      && result.jobKeywordsFound == MatchJob(TechnicalKeywords, SoftSkills, jobDescription, lower).found
      && result.jobKeywordsMissing == MatchJob(TechnicalKeywords, SoftSkills, jobDescription, lower).missing
    ensures 60 <= result.totalScore <= 100 && 1 <= |result.suggestions| <= 5
    ensures result.category == Category(result.totalScore)
    ensures result.hasJobDescription <==> jobDescription.Some?
  {
    result := AnalyzeWith(TechnicalKeywords, SoftSkills, resumeText, jobDescription);
  }

  /**
   * The job description `analyze_resume_file` passes on: the uploaded file's text when
   * a file was sent, otherwise the stripped text when it is not blank, otherwise none.
   */
  function SelectJobDescription(fileText: Option<string>, text: Option<string>): (r: Option<string>)
    ensures fileText.Some? ==> r == fileText
    ensures fileText.None? ==> r == NonBlankStripped(text)
  {
    if fileText.Some? then fileText else NonBlankStripped(text)
  }

  /** Without a file, a description is passed exactly when the text is not blank, and then stripped. */
  lemma JobDescriptionFromText(text: Option<string>)
    ensures var r := SelectJobDescription(None, text);
      (r.Some? <==> text.Some? && !IsBlank(text.value))
      && (r.Some? ==> r.value == Trim(text.value) && Truthy(r))
  {
  }
}
