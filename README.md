# CareerCatalyst: a verified model of the scoring and bookkeeping core

CareerCatalyst is a résumé toolkit. It has three parts:

- A résumé builder page. It keeps a structured résumé record and scores it live as the user edits.
- An ATS page. It uploads a résumé, and optionally a job description, to a FastAPI backend and shows the returned report.
- A job aggregator. It filters job cards and scrapes Internshala.

This project models the deterministic logic inside those parts and proves what it promises:

- the live scorer and the résumé mutators of the builder;
- the comprehensive scorer and the result assembly of the AI-backed analyser;
- the keyword analyser of the simplified backend;
- the report grouping and the request validation of the ATS page;
- the assistant's fallback routing, the upload dispatch and the status mapping of the backend;
- the job-list filter;
- the Internshala URL builder and record defaulting.

The modules follow the source files:

| module | models |
|---|---|
| `ResumeModel`, `LiveScore`, `ResumeEdits`, `Builder` | `src/pages/ResumeBuilder.jsx` |
| `AtsAnalyzer` | `backend/ats_analyzer.py` |
| `SimpleAnalyzer` | `backend/app_simple.py` |
| `AtsResumePage` | `src/pages/ATSResume.jsx` |
| `ApiServer` | `backend/app.py` |
| `JobFilter` | `src/components/JobAggregator_backup.js` |
| `Internshala` | `backend/aggregator.py` |
| `Wrappers`, `Text`, `Seqs`, `SectionFlags` | shared helpers |

The shared helpers are:

- `Wrappers`: option and result types.
- `Text`: trim, lower-case, substring, split and join.
- `Seqs`: order-preserving filter, subsequence, take and remove-at.
- `SectionFlags`: the present/missing split of an ordered dictionary of flags.

Each module takes the form of its source:

- The builder's state lives in the class `Builder.ResumeBuilder`. Each handler there is a method that applies the pure transition from `ResumeEdits` and then re-scores with the imperative `LiveScore.CalculateLiveScore`. This replaces React's `useEffect` on `resumeData`.
- The imperative procedures of the source are methods, each proved equal to a specification function:
  - `LiveScore.CalculateLiveScore`
  - `AtsAnalyzer.AssembleSuggestions`
  - `SimpleAnalyzer.BuildSuggestions`
  - `AtsResumePage.GroupReport`
  - `AtsResumePage.HandleAnalyzeResume`
  - `ApiServer.AnalyzeResumeFile`
  - `Internshala.FetchInternshala` and its helper methods
- Two of them contain loops, and those loops carry invariants: the `forEach` in `AtsResumePage.GroupReport`, and the page and card loops in `Internshala.FetchPages` and `Internshala.AppendCards`. The other procedures are straight-line code.
- The comprehensions, if/elif chains and spread updates are functions.

JavaScript numbers are modelled as exact `real`s, so ÷6 and ×1.5 carry no rounding. `Math.round` is floor(x + ½). Python's `round` of the match ratio is round-half-to-even on the exact rational.

Code that cannot be seen here becomes a parameter of the model:

- the AI reply (`AiAnalysis`, and `model` in `ApiServer.AssistantReply`);
- the regex detectors (`Sections` and the list of formatting issues);
- the file readers (`Upload.content`);
- the HTTP scraper (`get` in `Internshala`);
- the markdown scrub and split (`scrub` and `splitSections` in `AtsResumePage.CleanMarkdownReport`).

## Model

| member | source | states |
|---|---|---|
| ResumeModel.HeaderValues | CareerCatalyst2/CareerCatalyst/src/pages/ResumeBuilder.jsx:535 | `Object.values(header)`: the six header fields in order, so there are six values. |
| ResumeModel.InitialResume | CareerCatalyst2/CareerCatalyst/src/pages/ResumeBuilder.jsx:481-524 | The initial record: one blank entry in each list section, with `achievements: ['']`, empty skill lists and buffers, and a blank header and summary. |
| LiveScore.RoundHalfUp | CareerCatalyst2/CareerCatalyst/src/pages/ResumeBuilder.jsx:585 | `Math.round`: the result r satisfies r − ½ ≤ x < r + ½, so halves round up. |
| LiveScore.FilledHeaderFields | CareerCatalyst2/CareerCatalyst/src/pages/ResumeBuilder.jsx:535 | The number of header fields that are non-empty after trim, at most 6. |
| LiveScore.HeaderPoints | CareerCatalyst2/CareerCatalyst/src/pages/ResumeBuilder.jsx:535-536 | The header sub-score is n/6·20, where n is the number of filled fields, and lies in [0, 20]. |
| LiveScore.ExperiencePoints | CareerCatalyst2/CareerCatalyst/src/pages/ResumeBuilder.jsx:556-559 | min(30, 15·v), where v counts entries whose title, company and description are all non-blank. |
| LiveScore.SkillsPoints | CareerCatalyst2/CareerCatalyst/src/pages/ResumeBuilder.jsx:566-567 | min(15, 1.5·(\|technical\|+\|soft\|)). |
| LiveScore.EducationPoints | CareerCatalyst2/CareerCatalyst/src/pages/ResumeBuilder.jsx:574-577 | min(10, 10·valid), where a valid entry has a non-blank degree and institution. |
| LiveScore.ProjectPoints | CareerCatalyst2/CareerCatalyst/src/pages/ResumeBuilder.jsx:580-583 | min(10, 5·valid), where a valid project has a non-blank title and description. |
| LiveScore.CalculateLiveScore | CareerCatalyst2/CareerCatalyst/src/pages/ResumeBuilder.jsx:530-587 | The `+=`/`push` procedure returns exactly the specified rounded score and feedback list, and the score lies in [0, 100]. |
| LiveScore.MeasuresDetermineResult | CareerCatalyst2/CareerCatalyst/src/pages/ResumeBuilder.jsx:530-587 | Score and feedback depend only on the six measures: filled header fields, trimmed summary length, and the valid experience, skill, education and project counts. Recomputing on equal data gives the same pair. |
| LiveScore.ScoreBounds | CareerCatalyst2/CareerCatalyst/src/pages/ResumeBuilder.jsx:530-587 | The raw sum lies in [0, 100] and the stored score in 0..100. |
| LiveScore.ContactWarningRule | CareerCatalyst2/CareerCatalyst/src/pages/ResumeBuilder.jsx:538-540 | The contact warning is in the feedback if and only if fewer than 4 header fields are filled. |
| LiveScore.SummaryBands | CareerCatalyst2/CareerCatalyst/src/pages/ResumeBuilder.jsx:543-553 | For each band of the trimmed summary length (>100, 51..100, 1..50, 0), the points are 15, 10, 5 or 0, and the summary feedback is exactly none, the info item, the expand warning or the add warning. |
| LiveScore.ExperienceWarningRule | CareerCatalyst2/CareerCatalyst/src/pages/ResumeBuilder.jsx:556-563 | The experience warning is given, and the experience points are 0, exactly when no entry is valid. |
| LiveScore.SkillsInfoRule | CareerCatalyst2/CareerCatalyst/src/pages/ResumeBuilder.jsx:569-571 | The skills info item is given exactly when there are fewer than 8 skills in total. |
| LiveScore.OnlyFourRulesGiveFeedback | CareerCatalyst2/CareerCatalyst/src/pages/ResumeBuilder.jsx:573-583 | Every feedback item comes from the header, summary, experience or skills rule. Education and projects never give feedback. |
| LiveScore.FeedbackOrder | CareerCatalyst2/CareerCatalyst/src/pages/ResumeBuilder.jsx:530-587 | At most 4 items, strictly ordered header, summary, experience, skills. |
| LiveScore.HeaderMonotone | CareerCatalyst2/CareerCatalyst/src/pages/ResumeBuilder.jsx:535-536 | Filling more header fields never lowers the header points. |
| LiveScore.InitialDocumentScore | CareerCatalyst2/CareerCatalyst/src/pages/ResumeBuilder.jsx:481-587 | The initial record scores 0, with the four feedback items in order. |
| LiveScore.CompleteDocumentScore | CareerCatalyst2/CareerCatalyst/src/pages/ResumeBuilder.jsx:530-587 | Suppose all header fields are filled, the summary is long, there are 10 skills, and one valid experience, education and project entry. Then the raw sum is exactly 80 and no feedback is given. |
| ResumeEdits.Get | CareerCatalyst2/CareerCatalyst/src/pages/ResumeBuilder.jsx:722-727 | Reading a section yields the value tagged with that section's key. |
| ResumeEdits.UpdateResumeData | CareerCatalyst2/CareerCatalyst/src/pages/ResumeBuilder.jsx:722-727 | `{...prev, [section]: data}`: the named section becomes `data`, and every other section is unchanged. |
| ResumeEdits.Extensionality | CareerCatalyst2/CareerCatalyst/src/pages/ResumeBuilder.jsx:722-727 | Two records that agree on every section key are equal. |
| ResumeEdits.UpdateWithCurrentIsIdentity | CareerCatalyst2/CareerCatalyst/src/pages/ResumeBuilder.jsx:722-727 | Writing back a section's current value changes nothing. |
| ResumeEdits.LaterUpdateWins | CareerCatalyst2/CareerCatalyst/src/pages/ResumeBuilder.jsx:722-727 | Two updates of the same section equal the second one alone. |
| ResumeEdits.AddArrayItem | CareerCatalyst2/CareerCatalyst/src/pages/ResumeBuilder.jsx:729-741 | Appends the section's blank template at the end: the length grows by one, earlier entries are kept, experience gets `achievements: ['']`, and all other sections are unchanged. |
| ResumeEdits.RemoveArrayItem | CareerCatalyst2/CareerCatalyst/src/pages/ResumeBuilder.jsx:743-748 | Removes exactly index i, keeping the order of the rest. An out-of-range index leaves the record unchanged. Other sections are unchanged. |
| ResumeEdits.AddThenRemoveLast | CareerCatalyst2/CareerCatalyst/src/pages/ResumeBuilder.jsx:729-748 | Removing the entry just added restores the record. |
| ResumeEdits.AddSkill | CareerCatalyst2/CareerCatalyst/src/pages/ResumeBuilder.jsx:750-762 | With a non-blank buffer, the trimmed buffer is appended to that list and the buffer is cleared. With a blank buffer, nothing changes. The other list and buffer, and every other section, are unchanged. |
| ResumeEdits.RemoveSkill | CareerCatalyst2/CareerCatalyst/src/pages/ResumeBuilder.jsx:764-772 | Removes only index i of that list. The other list and both buffers are untouched. |
| ResumeEdits.AddThenRemoveSkill | CareerCatalyst2/CareerCatalyst/src/pages/ResumeBuilder.jsx:750-772 | Removing the skill just added restores the skill list. |
| ResumeEdits.TypeSkill | CareerCatalyst2/CareerCatalyst/src/pages/ResumeBuilder.jsx:1154 | Typing into a skill input sets only that buffer. |
| ResumeEdits.EditHeader | CareerCatalyst2/CareerCatalyst/src/pages/ResumeBuilder.jsx:807-907 | A header input sets exactly that field. Other fields and sections are unchanged. |
| ResumeEdits.EditSummary | CareerCatalyst2/CareerCatalyst/src/pages/ResumeBuilder.jsx:932 | The summary input sets the summary and nothing else. |
| ResumeEdits.SetExperienceField | CareerCatalyst2/CareerCatalyst/src/pages/ResumeBuilder.jsx:991-995 | The edited copy has the new value in that field. Other fields and the achievements are kept. |
| ResumeEdits.EditExperience | CareerCatalyst2/CareerCatalyst/src/pages/ResumeBuilder.jsx:991-1070 | Only entry `index` changes, and only in the edited field. The length and the other sections are unchanged. |
| ResumeEdits.SetEducationField | CareerCatalyst2/CareerCatalyst/src/pages/ResumeBuilder.jsx:1304-1380 | The edited copy has the new value in that field. Other fields are kept. |
| ResumeEdits.EditEducation | CareerCatalyst2/CareerCatalyst/src/pages/ResumeBuilder.jsx:1304-1380 | Only entry `index` changes, and only in the edited field. Everything else is unchanged. |
| ResumeEdits.SetProjectField | CareerCatalyst2/CareerCatalyst/src/pages/ResumeBuilder.jsx:1458-1535 | The edited copy has the new value in that field. Other fields are kept. |
| ResumeEdits.EditProject | CareerCatalyst2/CareerCatalyst/src/pages/ResumeBuilder.jsx:1458-1535 | Only entry `index` changes, and only in the edited field. Everything else is unchanged. |
| ResumeEdits.SetCertificationField | CareerCatalyst2/CareerCatalyst/src/pages/ResumeBuilder.jsx:1614-1666 | The edited copy has the new value in that field. Other fields are kept. |
| ResumeEdits.EditCertification | CareerCatalyst2/CareerCatalyst/src/pages/ResumeBuilder.jsx:1614-1666 | Only entry `index` changes, and only in the edited field. Everything else is unchanged. |
| ResumeEdits.ListLengthOfKey | CareerCatalyst2/CareerCatalyst/src/pages/ResumeBuilder.jsx:729-748 | A list's length is a function of its section value. |
| ResumeEdits.OfferedActionsKeepListsNonEmpty | CareerCatalyst2/CareerCatalyst/src/pages/ResumeBuilder.jsx:966-1087 | The page offers delete only when a list has more than one entry. So adding, or deleting where offered, keeps every list non-empty. |
| ResumeEdits.RemovingOnlyEntryEmptiesList | CareerCatalyst2/CareerCatalyst/src/pages/ResumeBuilder.jsx:743-748 | `removeArrayItem` itself has no guard: removing the only entry empties the list. |
| ResumeEdits.InitialListsNonEmpty | CareerCatalyst2/CareerCatalyst/src/pages/ResumeBuilder.jsx:481-524 | Every list of the initial record is non-empty. |
| ResumeEdits.AddBlankKeepsMeasures | CareerCatalyst2/CareerCatalyst/src/pages/ResumeBuilder.jsx:729-741 | A blank template never counts as valid, so adding one keeps all six scoring measures. |
| ResumeEdits.AddBlankKeepsScore | CareerCatalyst2/CareerCatalyst/src/pages/ResumeBuilder.jsx:729-741 | Adding a blank entry leaves the live score and feedback unchanged. |
| ResumeEdits.AddSkillCount | CareerCatalyst2/CareerCatalyst/src/pages/ResumeBuilder.jsx:750-762 | `addSkill` raises the skill total by one exactly when the buffer is non-blank. |
| Builder.ResumeBuilder.constructor | CareerCatalyst2/CareerCatalyst/src/pages/ResumeBuilder.jsx:481-528 | The page starts with the initial record, already scored (0), with non-empty lists. |
| Builder.ResumeBuilder.Rescore | CareerCatalyst2/CareerCatalyst/src/pages/ResumeBuilder.jsx:526-528 | The effect recomputes score and feedback from the data without changing it. Re-running it on scored data changes nothing. |
| Builder.ResumeBuilder.UpdateResumeData | CareerCatalyst2/CareerCatalyst/src/pages/ResumeBuilder.jsx:722-727 | The new data is the pure update of the old, re-scored. |
| Builder.ResumeBuilder.AddArrayItem | CareerCatalyst2/CareerCatalyst/src/pages/ResumeBuilder.jsx:729-741 | The new data is the pure append, re-scored. Non-empty lists stay non-empty, and the score and feedback are unchanged. |
| Builder.ResumeBuilder.RemoveArrayItem | CareerCatalyst2/CareerCatalyst/src/pages/ResumeBuilder.jsx:743-748 | The new data is the pure removal, re-scored. A removal the page offers keeps the lists non-empty. |
| Builder.ResumeBuilder.AddSkill | CareerCatalyst2/CareerCatalyst/src/pages/ResumeBuilder.jsx:750-762 | The new data is the pure `addSkill`, re-scored. |
| Builder.ResumeBuilder.RemoveSkill | CareerCatalyst2/CareerCatalyst/src/pages/ResumeBuilder.jsx:764-772 | The new data is the pure `removeSkill`, re-scored. |
| Builder.ResumeBuilder.TypeSkill | CareerCatalyst2/CareerCatalyst/src/pages/ResumeBuilder.jsx:1230 | The new data has the typed buffer, re-scored. |
| Builder.ResumeBuilder.EditHeader | CareerCatalyst2/CareerCatalyst/src/pages/ResumeBuilder.jsx:807-907 | The new data has the one header field set, re-scored. |
| Builder.ResumeBuilder.EditSummary | CareerCatalyst2/CareerCatalyst/src/pages/ResumeBuilder.jsx:932 | The new data has the summary set, re-scored. |
| Builder.ResumeBuilder.EditExperience | CareerCatalyst2/CareerCatalyst/src/pages/ResumeBuilder.jsx:991-1070 | The new data has the one entry field set, re-scored. |
| Builder.ResumeBuilder.EditEducation | CareerCatalyst2/CareerCatalyst/src/pages/ResumeBuilder.jsx:1304-1380 | The new data has the one entry field set, re-scored. |
| Builder.ResumeBuilder.EditProject | CareerCatalyst2/CareerCatalyst/src/pages/ResumeBuilder.jsx:1458-1535 | The new data has the one entry field set, re-scored. |
| Builder.ResumeBuilder.EditCertification | CareerCatalyst2/CareerCatalyst/src/pages/ResumeBuilder.jsx:1614-1666 | The new data has the one entry field set, re-scored. |
| AtsAnalyzer.AdjustAiScore | CareerCatalyst2/CareerCatalyst/backend/ats_analyzer.py:243-252 | A missing score counts as 60. Scores above 90 become 75, 81..90 become 70, and at most 80 become min(s, 65). The result never exceeds 75. |
| AtsAnalyzer.SectionBonus | CareerCatalyst2/CareerCatalyst/backend/ats_analyzer.py:257-259 | 3 points per essential section present, at most 12. |
| AtsAnalyzer.MissingSectionPenalty | CareerCatalyst2/CareerCatalyst/backend/ats_analyzer.py:291-292 | 8 points per essential section missing, at most 32. |
| AtsAnalyzer.FormattingPenalty | CareerCatalyst2/CareerCatalyst/backend/ats_analyzer.py:263 | min(5·\|issues\|, 25): 5 per issue below five issues, 25 from five on. |
| AtsAnalyzer.ContentBonus | CareerCatalyst2/CareerCatalyst/backend/ats_analyzer.py:266-276 | 0 for an empty content-strength record. Otherwise 5 iff action verbs ≥ 8 and achievements ≥ 5, else 2 iff action verbs ≥ 7 or achievements ≥ 3, else 0 (missing keys count as 0). |
| AtsAnalyzer.SuggestionPenalty | CareerCatalyst2/CareerCatalyst/backend/ats_analyzer.py:280-287 | 15, 10, 5 or 0 for more than 6, more than 4, more than 2, or at most 2 suggestions, each band in both directions. |
| AtsAnalyzer.Clamp | CareerCatalyst2/CareerCatalyst/backend/ats_analyzer.py:296-297 | `max(15, min(95, x))`: the result lies in [15, 95] and equals x inside that range. |
| AtsAnalyzer.ComprehensiveScore | CareerCatalyst2/CareerCatalyst/backend/ats_analyzer.py:234-313 | The breakdown echoes each component, and the total is the clamped signed sum, in [15, 95]. |
| AtsAnalyzer.ScoreAtMost92 | CareerCatalyst2/CareerCatalyst/backend/ats_analyzer.py:234-313 | The upper clamp never binds: the total is at most 75 + 12 + 5 = 92. |
| AtsAnalyzer.EssentialSectionWorth11 | CareerCatalyst2/CareerCatalyst/backend/ats_analyzer.py:257-259 | Before clamping, each essential section present moves the sum by 11 points (bonus 3, penalty 8). |
| AtsAnalyzer.MoreSectionsNeverLower | CareerCatalyst2/CareerCatalyst/backend/ats_analyzer.py:234-313 | More essential sections never lower the total score. |
| AtsAnalyzer.MoreIssuesNeverRaise | CareerCatalyst2/CareerCatalyst/backend/ats_analyzer.py:263 | More formatting issues never raise the total score. |
| AtsAnalyzer.ScoreCategory | CareerCatalyst2/CareerCatalyst/backend/ats_analyzer.py:333-345 | Excellent iff ≥ 80, Good iff 65..79, Fair iff 45..64, Needs Improvement iff < 45. |
| AtsAnalyzer.CategoryMonotone | CareerCatalyst2/CareerCatalyst/backend/ats_analyzer.py:333-345 | A higher score never gets a worse category. |
| AtsAnalyzer.AssembleSuggestions | CareerCatalyst2/CareerCatalyst/backend/ats_analyzer.py:347-360 | The `insert(0, …)`/`append` procedure gives exactly the specified suggestion list. |
| AtsAnalyzer.SuggestionListShape | CareerCatalyst2/CareerCatalyst/backend/ats_analyzer.py:347-360 | The AI's list is kept intact, after the contact suggestion when Contact Info is missing. At most four suggestions are added in all, and the formatting one is last whenever there are issues. |
| AtsAnalyzer.ContactSuggestionSurvives | CareerCatalyst2/CareerCatalyst/backend/ats_analyzer.py:353-354 | A missing Contact Info puts its suggestion first, where truncation to 10 keeps it. |
| AtsAnalyzer.NothingAddedWhenComplete | CareerCatalyst2/CareerCatalyst/backend/ats_analyzer.py:347-360 | With every section detected and no issues, only the AI's suggestions remain. |
| AtsAnalyzer.Detected | CareerCatalyst2/CareerCatalyst/backend/ats_analyzer.py:380-381 | The present and missing lists are the two filtered views of the eight section keys in dictionary order, with sizes adding to 8. |
| AtsAnalyzer.AnalyzeResume | CareerCatalyst2/CareerCatalyst/backend/ats_analyzer.py:314-417 | The result carries the comprehensive score, its category, `hasJobDescription` iff a description was passed, the detected sections, the issues, and the suggestions truncated to 10. Keywords are capped at 15 and 10, and match data is absent without a description. |
| SectionFlags.Names | CareerCatalyst2/CareerCatalyst/backend/ats_analyzer.py:380-381 | The dictionary's keys in order, one per entry. |
| SectionFlags.PartitionSizes | CareerCatalyst2/CareerCatalyst/backend/app_simple.py:317-318 | Every entry lands in exactly one of the present and missing lists. |
| SectionFlags.PartitionMembership | CareerCatalyst2/CareerCatalyst/backend/app_simple.py:317-318 | A name is present iff some entry flags it true, and missing iff some entry flags it false. |
| SectionFlags.PartitionKeepsOrder | CareerCatalyst2/CareerCatalyst/backend/app_simple.py:317-318 | Both lists are subsequences of the keys in dictionary order. |
| SimpleAnalyzer.FoundKeywords | CareerCatalyst2/CareerCatalyst/backend/app_simple.py:247-248 | The comprehension keeps at most the table's keywords. |
| SimpleAnalyzer.FoundKeywordsExactly | CareerCatalyst2/CareerCatalyst/backend/app_simple.py:241-248 | A keyword is found iff it is in the table and occurs in the text, and the found list keeps table order. |
| SimpleAnalyzer.TotalScore | CareerCatalyst2/CareerCatalyst/backend/app_simple.py:273-277 | The score equals 60 + min(5t, 25) + min(3s, 15), lies in [60, 100], and is 100 iff t ≥ 5 and s ≥ 5. |
| SimpleAnalyzer.TotalScoreMonotone | CareerCatalyst2/CareerCatalyst/backend/app_simple.py:273-277 | Finding more keywords never lowers the score. |
| SimpleAnalyzer.Category | CareerCatalyst2/CareerCatalyst/backend/app_simple.py:280-291 | Excellent iff ≥ 85, Good iff 70..84, Fair iff 55..69, Needs Improvement iff < 55. |
| SimpleAnalyzer.NeverNeedsImprovement | CareerCatalyst2/CareerCatalyst/backend/app_simple.py:273-291 | The score is at least 60, so this analyser never answers Needs Improvement. |
| SimpleAnalyzer.RoundHalfEven | CareerCatalyst2/CareerCatalyst/backend/app_simple.py:270 | Python `round(num/den)` is ⌊num/den⌋ or one more. |
| SimpleAnalyzer.RoundHalfEvenNearest | CareerCatalyst2/CareerCatalyst/backend/app_simple.py:270 | The rounded value is within ½ of the exact ratio, and even on a tie. |
| SimpleAnalyzer.MulMonotone | CareerCatalyst2/CareerCatalyst/backend/app_simple.py:270 | Multiplying by a natural number keeps ≤. This supports the percentage bound. |
| SimpleAnalyzer.PercentAtMost100 | CareerCatalyst2/CareerCatalyst/backend/app_simple.py:270 | A ratio of at most one rounds to at most 100 percent. |
| SimpleAnalyzer.SplitKeywords | CareerCatalyst2/CareerCatalyst/backend/app_simple.py:264-270 | For a non-empty keyword list the match percentage is at most 100. |
| SimpleAnalyzer.MatchJob | CareerCatalyst2/CareerCatalyst/backend/app_simple.py:251-270 | No (or an empty) description gives no keywords and 0. A description without job keywords gives no keywords and 0. Otherwise the result is the split of the job keywords (technical then soft). The percentage is always at most 100. |
| SimpleAnalyzer.ComplementarySizes | CareerCatalyst2/CareerCatalyst/backend/app_simple.py:265-266 | Two complementary filters partition the list by size. |
| SimpleAnalyzer.JobMatchSplit | CareerCatalyst2/CareerCatalyst/backend/app_simple.py:264-270 | Each job keyword is found iff it occurs in the résumé, and missing iff it does not. Found and missing sizes add to the total, and the percentage is round(100·found/total). |
| SimpleAnalyzer.KeywordMatchPercentage | CareerCatalyst2/CareerCatalyst/backend/app_simple.py:333 | min(10·(t+s), 100): 10·(t+s) below ten keywords, and 100 iff at least 10 keywords are found. |
| SimpleAnalyzer.SectionChecks | CareerCatalyst2/CareerCatalyst/backend/app_simple.py:306-315 | The section check dictionary has the eight names, in insertion order. |
| SimpleAnalyzer.ManyTechnicalMeansSkills | CareerCatalyst2/CareerCatalyst/backend/app_simple.py:309 | With more than two technical keywords, Skills is present. |
| SimpleAnalyzer.BuildSuggestions | CareerCatalyst2/CareerCatalyst/backend/app_simple.py:294-323 | The append sequence gives the five conditional suggestions in their fixed order, then action verbs, then quantified achievements. |
| SimpleAnalyzer.AppendWhen | CareerCatalyst2/CareerCatalyst/backend/app_simple.py:295-296 | One conditional append adds the suggestion exactly when the condition holds. |
| SimpleAnalyzer.ConditionalShape | CareerCatalyst2/CareerCatalyst/backend/app_simple.py:294-320 | At most five conditional suggestions fire, and neither fixed suggestion is among them. |
| SimpleAnalyzer.ActionVerbsReturned | CareerCatalyst2/CareerCatalyst/backend/app_simple.py:322-337 | The returned prefix has 2 to 5 items. It includes the action-verbs suggestion exactly when at most four conditional suggestions fired. |
| SimpleAnalyzer.AnalyzeWith | CareerCatalyst2/CareerCatalyst/backend/app_simple.py:237-345 | For given tables, the result holds: the found keywords; the score and its category; the job match; the keyword percentage; the suggestions truncated to 5; the section split; and `hasJobDescription` iff a description was passed. |
| SimpleAnalyzer.SimpleAtsAnalysis | CareerCatalyst2/CareerCatalyst/backend/app_simple.py:237-345 | With the source's own tables: found keywords as specified, a score in [60, 100] with its category, 1 to 5 suggestions, and `hasJobDescription` iff a description was passed. |
| SimpleAnalyzer.SelectJobDescription | CareerCatalyst2/CareerCatalyst/backend/app_simple.py:388-392 | A file's text takes precedence. Otherwise non-blank text is used stripped, and anything else gives None. |
| SimpleAnalyzer.JobDescriptionFromText | CareerCatalyst2/CareerCatalyst/backend/app_simple.py:390-392 | Without a file, a description is passed iff the text is non-blank, and it is then the stripped text. |
| AtsResumePage.TagLine | CareerCatalyst2/CareerCatalyst/src/pages/ATSResume.jsx:70-77 | Tagging never introduces a line break. |
| AtsResumePage.TagLineExactly | CareerCatalyst2/CareerCatalyst/src/pages/ATSResume.jsx:70-77 | A line is changed iff it ends with ':', is shorter than 50 and does not start with '•'. A changed line is `HEADER:` followed by the line. |
| AtsResumePage.TagLines | CareerCatalyst2/CareerCatalyst/src/pages/ATSResume.jsx:69-77 | `lines.map(tag)`: the same length, with each line tagged in place. |
| AtsResumePage.TagSectionLines | CareerCatalyst2/CareerCatalyst/src/pages/ATSResume.jsx:69-78 | Tagging keeps the line structure: splitting the tagged section gives the tagged lines. |
| AtsResumePage.CleanMarkdownReport | CareerCatalyst2/CareerCatalyst/src/pages/ATSResume.jsx:53-54 | Missing or empty input gives ''. |
| AtsResumePage.GroupReport | CareerCatalyst2/CareerCatalyst/src/pages/ATSResume.jsx:82-100 | The `forEach` loop yields exactly the specified grouping of the report's lines. |
| AtsResumePage.ConcatAppend | CareerCatalyst2/CareerCatalyst/src/pages/ATSResume.jsx:87-100 | Concatenation distributes over appending one section. |
| AtsResumePage.ProcessConcat | CareerCatalyst2/CareerCatalyst/src/pages/ATSResume.jsx:87-96 | Loop invariant: the finished sections followed by the open one concatenate to the pieces of the lines so far. |
| AtsResumePage.GroupingKeepsText | CareerCatalyst2/CareerCatalyst/src/pages/ATSResume.jsx:87-100 | No text is lost, duplicated or reordered. The sections concatenate to the header texts and kept lines, each kept line followed by '\n', and whitespace-only lines are dropped. |
| AtsResumePage.ProcessSectionsNonEmpty | CareerCatalyst2/CareerCatalyst/src/pages/ATSResume.jsx:88-92 | A header closes the open section only when it is non-empty. |
| AtsResumePage.GroupSectionsNonEmpty | CareerCatalyst2/CareerCatalyst/src/pages/ATSResume.jsx:87-100 | Every emitted section is non-empty. |
| AtsResumePage.ProcessCount | CareerCatalyst2/CareerCatalyst/src/pages/ATSResume.jsx:87-96 | The open section is empty only before any header or kept line, and the sections so far number one per header, plus one for leading text. |
| AtsResumePage.SectionCount | CareerCatalyst2/CareerCatalyst/src/pages/ATSResume.jsx:87-100 | There is one section per header line, plus one when text precedes the first header. |
| AtsResumePage.ViewSection | CareerCatalyst2/CareerCatalyst/src/pages/ATSResume.jsx:102-105 | The heading is the first line and has no line break. The heading and the body, joined by '\n', give back the trimmed section. |
| AtsResumePage.SplitSingle | CareerCatalyst2/CareerCatalyst/src/pages/ATSResume.jsx:103-105 | A string splits into more than one line iff it contains '\n'. |
| AtsResumePage.HandleAnalyzeResume | CareerCatalyst2/CareerCatalyst/src/pages/ATSResume.jsx:175-206 | The validation and the `FormData`/endpoint construction give exactly the specified request or error. |
| AtsResumePage.RequestShape | CareerCatalyst2/CareerCatalyst/src/pages/ATSResume.jsx:176-206 | The outcome is one of the following. (1) With no résumé, an error and no request. (2) In job-description mode with blank text and no file, an error. (3) Otherwise a request carrying the résumé first, plus the job-description file, or failing that the text, only in that mode. Quick mode posts to the quick endpoint. |
| ApiServer.FallbackTopic | CareerCatalyst2/CareerCatalyst/backend/app.py:228-293 | The chosen topic's keywords occur in the message (unless it is the default), and no earlier topic's keywords do. |
| ApiServer.FallbackIsFirstMatch | CareerCatalyst2/CareerCatalyst/backend/app.py:228-293 | The first matching topic in priority order is the one chosen: summary/objective, experience/work, skills, education, ats/optimize, default. |
| ApiServer.AssistantTopicIgnoresCase | CareerCatalyst2/CareerCatalyst/backend/app.py:173 | Lower-casing before routing makes the topic ignore case. |
| ApiServer.AssistantReply | CareerCatalyst2/CareerCatalyst/backend/app.py:190-221 | The model's text is used exactly when the model answers. Otherwise the canned reply is the one for the lower-cased message. |
| ApiServer.Context | CareerCatalyst2/CareerCatalyst/backend/app.py:169-187 | The context is absent iff no data was sent or the data is empty. |
| ApiServer.BuilderContext | CareerCatalyst2/CareerCatalyst/backend/app.py:184 | The builder's payload gives the counts of the record. The skill total is \|technical\|+\|soft\|, and a missing key counts as empty. |
| ApiServer.KindOf | CareerCatalyst2/CareerCatalyst/backend/app.py:60-91 | The handler is chosen by the lower-cased suffix: .pdf, .docx or .txt, each in both directions. |
| ApiServer.KindIgnoresCase | CareerCatalyst2/CareerCatalyst/backend/app.py:60 | The dispatch ignores the filename's case. |
| ApiServer.ExtractText | CareerCatalyst2/CareerCatalyst/backend/app.py:58-91 | Any other suffix gives "Unsupported file type", and .docx without the library gives its own error. A reader failure gives the per-kind processing error. Success is the stripped text. |
| ApiServer.AnalyzeResumeFile | CareerCatalyst2/CareerCatalyst/backend/app.py:99-138 | The endpoint answers exactly the specified response. A file's description takes precedence over text, and blank text is None. The empty résumé and unreadable description surface as 500. |
| ApiServer.AnalyzeResumeQuick | CareerCatalyst2/CareerCatalyst/backend/app.py:140-160 | The quick endpoint answers exactly the specified response. |
| ApiServer.QuickIsFileWithoutDescription | CareerCatalyst2/CareerCatalyst/backend/app.py:99-160 | The quick endpoint behaves as the file endpoint without a job description. |
| ApiServer.FileStatusRule | CareerCatalyst2/CareerCatalyst/backend/app.py:111-138 | Status 400 comes exactly from a `ValueError` while reading the résumé, and every other failure is 500. |
| ApiServer.FileTakesPrecedence | CareerCatalyst2/CareerCatalyst/backend/app.py:118-126 | With a job-description file the text field is ignored. |
| ApiServer.BlankTextMeansNoDescription | CareerCatalyst2/CareerCatalyst/backend/app.py:127-129 | Without a file, the analysis gets the stripped text when it is non-blank, and None otherwise. |
| ApiServer.Field | CareerCatalyst2/CareerCatalyst/backend/app.py:100-104 | A parameter is found if and only if its name was posted, and then it is the value of the first field posted under that name. |
| ApiServer.FileFormParams | CareerCatalyst2/CareerCatalyst/backend/app.py:100-104 | The page's file request binds `resume_file` and `job_description_file`, and no text. |
| ApiServer.TextFormParams | CareerCatalyst2/CareerCatalyst/backend/app.py:100-104 | The page's text request binds `resume_file` and `job_description_text`, and no file. |
| ApiServer.EndpointsDiffer | CareerCatalyst2/CareerCatalyst/src/pages/ATSResume.jsx:194-206 | The quick and file endpoints are different paths. |
| ApiServer.PageRequestsReachAnalysis | CareerCatalyst2/CareerCatalyst/backend/app.py:99-160 | When the page sends a request and the files are readable, the backend runs the analysis. In job-description mode it gets the file's text or the trimmed text; in quick mode it gets none. |
| JobFilter.FilteredJobsSpec | CareerCatalyst2/CareerCatalyst/src/components/JobAggregator_backup.js:123-127 | A job is shown iff it is in the list and matches, and the shown jobs are a subsequence. |
| JobFilter.ShownSourcesSelected | CareerCatalyst2/CareerCatalyst/src/components/JobAggregator_backup.js:124 | Every shown job's source is selected. |
| JobFilter.RoleRule | CareerCatalyst2/CareerCatalyst/src/components/JobAggregator_backup.js:125 | An empty role disables the role test. Otherwise a job matches iff the lower-cased role occurs in its lower-cased title. |
| JobFilter.OtherFiltersIgnored | CareerCatalyst2/CareerCatalyst/src/components/JobAggregator_backup.js:110-127 | Location, type and the other filter states do not affect the result. |
| JobFilter.RoleCaseIgnored | CareerCatalyst2/CareerCatalyst/src/components/JobAggregator_backup.js:125 | Lower-casing the role does not change the result. |
| JobFilter.InitiallyAllShown | CareerCatalyst2/CareerCatalyst/src/components/JobAggregator_backup.js:56-119 | With all four sources selected and the three dummy jobs, all three are shown in order. |
| JobFilter.SourceChange | CareerCatalyst2/CareerCatalyst/src/components/JobAggregator_backup.js:129-136 | A string is split on ',' into comma-free parts, and an array is taken as-is. |
| JobFilter.SourceChangeForms | CareerCatalyst2/CareerCatalyst/src/components/JobAggregator_backup.js:129-136 | The comma-joined string form of a key list selects the same keys as the array form. |
| Internshala.SearchUrlCases | CareerCatalyst2/CareerCatalyst/backend/aggregator.py:6-15 | Every URL is on the base. The four cases give base + "{location}-internship/jobs/{role}", base + "{location}-internship", base + "work-from-home-{role}-internship" and base + "work-from-home-internship". |
| Internshala.PageUrls | CareerCatalyst2/CareerCatalyst/backend/aggregator.py:18-19 | Page 1 is the URL unchanged, and page 2 appends "/page-2". |
| Internshala.CardDefaults | CareerCatalyst2/CareerCatalyst/backend/aggregator.py:32-49 | A missing title or company gives "N/A", and other missing tags give "". The link is empty iff there is no href, and is otherwise on the site. The location falls back to "N/A" and the type to "Internship". |
| Internshala.Records | CareerCatalyst2/CareerCatalyst/backend/aggregator.py:29-49 | One record per card. |
| Internshala.RecordsSnoc | CareerCatalyst2/CareerCatalyst/backend/aggregator.py:29-49 | One more card appends that card's record. |
| Internshala.RecordsAreFromCards | CareerCatalyst2/CareerCatalyst/backend/aggregator.py:29-49 | Record k is the record of card k. |
| Internshala.BuildSearchUrl | CareerCatalyst2/CareerCatalyst/backend/aggregator.py:6-15 | The `+=` across branches builds exactly the search URL. |
| Internshala.AppendCards | CareerCatalyst2/CareerCatalyst/backend/aggregator.py:29-49 | The card loop appends one record per card, in order. |
| Internshala.FetchPages | CareerCatalyst2/CareerCatalyst/backend/aggregator.py:18-52 | Exactly pages 1 and 2 are requested, in order, and each page that answered contributes its records. |
| Internshala.FetchInternshala | CareerCatalyst2/CareerCatalyst/backend/aggregator.py:4-53 | The requested URLs are the search URL and its "/page-2", and the jobs are page 1's records followed by page 2's. |
| Internshala.FetchedRecordsShape | CareerCatalyst2/CareerCatalyst/backend/aggregator.py:39-49 | Every record carries the given location (or "N/A") and type (or "Internship"), and a link that is empty or on the site. |
| Internshala.FetchedCount | CareerCatalyst2/CareerCatalyst/backend/aggregator.py:18-52 | One record per card of each page that answered, and none for a page that failed. |
| Internshala.FetchGlassdoor | CareerCatalyst2/CareerCatalyst/backend/aggregator.py:55-57 | Always the empty list. |
| Internshala.FetchLinkedin | CareerCatalyst2/CareerCatalyst/backend/aggregator.py:59-61 | Always the empty list. |
| Internshala.FetchIndeed | CareerCatalyst2/CareerCatalyst/backend/aggregator.py:63-65 | Always the empty list. |
| Text.Trim | CareerCatalyst2/CareerCatalyst/src/pages/ResumeBuilder.jsx:535 | JavaScript `trim` and Python `strip`: the result is never longer than the input (`TrimEmptyIffBlank` and `TrimmedEdges` state what it removes). |
| Text.TrimStart | CareerCatalyst2/CareerCatalyst/src/pages/ResumeBuilder.jsx:535 | The left strip is never longer than the input. |
| Text.TrimEnd | CareerCatalyst2/CareerCatalyst/src/pages/ResumeBuilder.jsx:535 | The right strip is never longer than the input. |
| Text.TrimStartSpec | CareerCatalyst2/CareerCatalyst/src/pages/ResumeBuilder.jsx:535 | The left strip is a suffix of the input, removes only whitespace, and does not start with whitespace. |
| Text.TrimEndSpec | CareerCatalyst2/CareerCatalyst/src/pages/ResumeBuilder.jsx:535 | The right strip is a prefix of the input, removes only whitespace, and does not end with whitespace. |
| Text.TrimEmptyIffBlank | CareerCatalyst2/CareerCatalyst/src/pages/ResumeBuilder.jsx:535 | `s.trim() !== ''` iff s has a non-whitespace character. |
| Text.TrimmedEdges | CareerCatalyst2/CareerCatalyst/src/pages/ResumeBuilder.jsx:535 | A non-empty trimmed string neither starts nor ends with whitespace. |
| Text.ToLower | CareerCatalyst2/CareerCatalyst/backend/app_simple.py:240 | Lower-casing keeps the length and maps each character. |
| Text.ToLowerIdempotent | CareerCatalyst2/CareerCatalyst/backend/app.py:173 | Lower-casing twice equals lower-casing once. |
| Text.Split | CareerCatalyst2/CareerCatalyst/src/pages/ATSResume.jsx:83 | `split('\n')` yields at least one part, and no part contains the separator. |
| Text.JoinSplit | CareerCatalyst2/CareerCatalyst/src/pages/ATSResume.jsx:69-78 | Joining the parts of a split with the separator gives back the string. |
| Text.SplitPrefix | CareerCatalyst2/CareerCatalyst/src/pages/ATSResume.jsx:69-78 | Splitting p + sep + t is p's part followed by t's parts, when p has no separator. |
| Text.SplitJoin | CareerCatalyst2/CareerCatalyst/src/components/JobAggregator_backup.js:134 | Splitting a join of separator-free parts gives back the parts. |
| Text.Decimal | CareerCatalyst2/CareerCatalyst/backend/aggregator.py:19 | The decimal form of a number is non-empty and made of digits. |
| Text.Digit | CareerCatalyst2/CareerCatalyst/backend/aggregator.py:19 | A digit below 10 is a character from '0' to '9'. |
| Text.NonBlankStripped | CareerCatalyst2/CareerCatalyst/backend/app.py:127-129 | `text and text.strip()`: the stripped text when non-blank, otherwise None. |
| Seqs.Filter | CareerCatalyst2/CareerCatalyst/src/components/JobAggregator_backup.js:123 | `Array.filter` and comprehensions keep at most the input's length. |
| Seqs.FilterMembership | CareerCatalyst2/CareerCatalyst/src/components/JobAggregator_backup.js:123 | x is kept iff it is in the input and satisfies the predicate. |
| Seqs.FilterIsSubsequence | CareerCatalyst2/CareerCatalyst/src/components/JobAggregator_backup.js:123 | The kept elements form an order-preserving subsequence. |
| Seqs.FilterCongruent | CareerCatalyst2/CareerCatalyst/src/components/JobAggregator_backup.js:123-127 | Predicates that agree on the list keep the same elements. |
| Seqs.FilterAll | CareerCatalyst2/CareerCatalyst/src/components/JobAggregator_backup.js:118-127 | A predicate true everywhere keeps the whole list. |
| Seqs.FilterAppend | CareerCatalyst2/CareerCatalyst/backend/app_simple.py:251-258 | Filtering distributes over concatenation. |
| Seqs.SubsequenceOfTail | CareerCatalyst2/CareerCatalyst/backend/app_simple.py:317-318 | A subsequence of a tail is a subsequence of the whole. |
| Seqs.SubsequenceDropHead | CareerCatalyst2/CareerCatalyst/backend/app_simple.py:317-318 | Dropping the first element of a subsequence keeps it a subsequence. |
| Seqs.TakeSpec | CareerCatalyst2/CareerCatalyst/backend/app_simple.py:337 | `s[:n]` has length min(n, \|s\|) and is a prefix of s. |
| Seqs.RemoveAt | CareerCatalyst2/CareerCatalyst/src/pages/ResumeBuilder.jsx:743-748 | `filter((_, i) => i !== index)` drops exactly that index: it is one shorter in range, unchanged out of range, and keeps the order of the rest. |
| Seqs.AppendThenRemoveLast | CareerCatalyst2/CareerCatalyst/src/pages/ResumeBuilder.jsx:729-748 | Removing the last element after appending it gives back the list. |

## Left out

- The network and AI calls are inputs and are not modelled. This covers the assistant fetch in the builder page, the axios post in the ATS page, Gemini and the parsing of its JSON, and the `requests`/BeautifulSoup scraping. For the same reason the AI reply is the input record `AiAnalysis`, the model's answer is the `model` parameter of `ApiServer.AssistantReply`, and the scraped cards come from the `get` parameter of `Internshala`.
- The file readers are inputs (`Upload.content`): pdfplumber, python-docx, UTF-8 decoding, and the canned sample résumés of the simplified backend. Binary formats are outside what a text model can state.
- The regex section and formatting detectors are inputs (`Sections`, `issues`), and so are the emoji and markdown `replace` chain and the section-splitting regex of `cleanMarkdownReport` (`scrub`, `splitSections`). Only the tagging rule and the result shapes are modelled.
- The markdown report builders and the fixed reply texts of `get_fallback_response` are not reproduced. The router returns a `Topic` instead, so the model captures which reply is chosen.
- The keyword lists, present/missing splits and echo fields of `analyzeResume` that merely copy the AI reply are not interpreted. `AtsAnalyzer.AnalyzeResume` bounds them by the truncation lengths only.
- JSX rendering, styles, PDF export, routing and the FastAPI/CORS/uvicorn setup are not modelled, because they state nothing checkable about data. The same holds for the 422 that FastAPI answers when a required file is missing.
- React scheduling (`useEffect`, `useState` batching) is replaced by an explicit re-score after each handler.
- The per-entry edits copy the array and mutate one element. They are modelled as value updates, so aliasing between the copied array's element and the old state is not captured. The result stored by the page is the same.
- Floating point: ÷6, ×1.5 and the match ratio are exact rationals, so IEEE-754 rounding of intermediate values is not modelled. The AI score is an integer.
- String length is counted in characters, not UTF-16 code units. Trimming and lower-casing are restricted to ASCII, and one whitespace set serves both languages: space, tab, line feed, carriage return, vertical tab and form feed. Python's `strip()` also removes the separators \x1c–\x1f, and both languages remove Unicode whitespace. So the model treats a string made only of those characters as non-blank, although the backend treats it as blank. Non-ASCII case mapping is not modelled either.
- Python `None` and `""` are one falsy value for the aggregator's role, location and type, because the code only tests their truthiness and interpolates them.
- Internshala.FetchInternshala: a scrape that raises part-way through a page is modelled as the whole page failing. Records appended before the exception are not modelled.
- ApiServer.Context: an empty payload is detected through the known keys plus an `otherKeys` flag, not through arbitrary dictionaries. The text of the context prompt is not built.
- SimpleAnalyzer.SimpleAtsAnalysis: its contract is partial (found keywords, score, category, suggestion bounds, `hasJobDescription`). `SimpleAnalyzer.AnalyzeWith` carries the full result contract for arbitrary tables.
- SimpleAnalyzer.SectionChecks: states only that there are eight checks in order. The individual flags are its body's `any(...)` tests, and `SimpleAnalyzer.ManyTechnicalMeansSkills` states the one cross-field rule.
- Three behaviours of the code a reader may not expect; the model follows the code:
  - `removeArrayItem` has no guard of its own; only the page hides the delete button when a list has one entry (`ResumeEdits.RemovingOnlyEntryEmptiesList`).
  - `hasJobDescription` tests `is not None`, while the keyword logic tests truthiness, so an empty description string counts as passed but matches nothing.
  - The empty-résumé and unreadable-description `HTTPException`s raised inside the `try` are caught by the catch-all, so they surface as 500 "Analysis failed: 400: …" rather than 400.
