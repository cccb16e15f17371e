/**
 * The builder page's state: the resume document, the stored ATS score and the stored
 * feedback list. Every control replaces the document with the result of one edit and
 * then re-scores, which is what the page's effect on `resumeData` does after each
 * change.
 */
module Builder {
  import opened ResumeModel
  import opened LiveScore
  import ResumeEdits

  class ResumeBuilder {
    var resumeData: ResumeDocument
    var atsScore: int
    var feedback: seq<FeedbackItem>

    /** The stored score and feedback are those of the current document. */
    predicate Scored()
      reads this
    {
      atsScore == Score(resumeData) && feedback == Feedback(resumeData) && 0 <= atsScore <= 100
    }

    /** Mounting the page: the initial document, scored once. */
    constructor ()
      ensures resumeData == InitialResume() && Scored()
      ensures ListsNonEmpty(resumeData)
      ensures atsScore == 0
    {
      resumeData := InitialResume();
      new;
      Rescore();
      ResumeEdits.InitialListsNonEmpty();
      InitialDocumentScore();
    }

    /** `calculateLiveScore()`: on an unchanged document it stores the same pair again. */
    method Rescore()
      modifies this
      ensures resumeData == old(resumeData) && Scored()
      ensures old(Scored()) ==> atsScore == old(atsScore) && feedback == old(feedback)
    {
      atsScore, feedback := CalculateLiveScore(resumeData);
    }

    method UpdateResumeData(data: ResumeEdits.SectionValue)
      modifies this
      ensures resumeData == ResumeEdits.UpdateResumeData(old(resumeData), data) && Scored()
    {
      resumeData := ResumeEdits.UpdateResumeData(resumeData, data);
      Rescore();
    }

    /** The "Add" button of a list section; the lists stay non-empty. */
    method AddArrayItem(section: ListSection)
      modifies this
      ensures resumeData == ResumeEdits.AddArrayItem(old(resumeData), section) && Scored()
      ensures old(ListsNonEmpty(resumeData)) ==> ListsNonEmpty(resumeData)
      ensures atsScore == old(Score(resumeData)) && feedback == old(Feedback(resumeData))
    {
      if ListsNonEmpty(resumeData) {
        ResumeEdits.OfferedActionsKeepListsNonEmpty(resumeData, ResumeEdits.Add(section));
      }
      ResumeEdits.AddBlankKeepsScore(resumeData, section);
      resumeData := ResumeEdits.AddArrayItem(resumeData, section);
      Rescore();
    }

    /** A delete button; when it is one the page shows, the lists stay non-empty. */
    method RemoveArrayItem(section: ListSection, index: int)
      modifies this
      ensures resumeData == ResumeEdits.RemoveArrayItem(old(resumeData), section, index) && Scored()
      ensures old(ListsNonEmpty(resumeData)) && old(ResumeEdits.Offered(resumeData, ResumeEdits.Remove(section, index)))
        ==> ListsNonEmpty(resumeData)
    {
      if ListsNonEmpty(resumeData) && ResumeEdits.Offered(resumeData, ResumeEdits.Remove(section, index)) {
        ResumeEdits.OfferedActionsKeepListsNonEmpty(resumeData, ResumeEdits.Remove(section, index));
      }
      resumeData := ResumeEdits.RemoveArrayItem(resumeData, section, index);
      Rescore();
    }

    /** "Add" (or Enter) beside a skill input. */
    method AddSkill(kind: SkillKind)
      modifies this
      ensures resumeData == ResumeEdits.AddSkill(old(resumeData), kind) && Scored()
    {
      resumeData := ResumeEdits.AddSkill(resumeData, kind);
      Rescore();
    }

    /** The "×" on a skill tag. */
    method RemoveSkill(kind: SkillKind, index: int)
      modifies this
      ensures resumeData == ResumeEdits.RemoveSkill(old(resumeData), kind, index) && Scored()
    {
      resumeData := ResumeEdits.RemoveSkill(resumeData, kind, index);
      Rescore();
    }

    /** Typing into a skill input. */
    method TypeSkill(kind: SkillKind, value: string)
      modifies this
      ensures resumeData == ResumeEdits.TypeSkill(old(resumeData), kind, value) && Scored()
    {
      resumeData := ResumeEdits.TypeSkill(resumeData, kind, value);
      Rescore();
    }

    method EditHeader(field: ResumeEdits.HeaderField, value: string)
      modifies this
      ensures resumeData == ResumeEdits.EditHeader(old(resumeData), field, value) && Scored()
    {
      resumeData := ResumeEdits.EditHeader(resumeData, field, value);
      Rescore();
    }

    method EditSummary(value: string)
      modifies this
      ensures resumeData == ResumeEdits.EditSummary(old(resumeData), value) && Scored()
    {
      resumeData := ResumeEdits.EditSummary(resumeData, value);
      Rescore();
    }

    /** An input of experience entry `index`, which the page renders only for existing entries. */
    method EditExperience(index: nat, field: ResumeEdits.ExperienceField, value: string)
      requires index < |resumeData.experience|
      modifies this
      ensures resumeData == ResumeEdits.EditExperience(old(resumeData), index, field, value) && Scored()
    {
      resumeData := ResumeEdits.EditExperience(resumeData, index, field, value);
      Rescore();
    }

    method EditEducation(index: nat, field: ResumeEdits.EducationField, value: string)
      requires index < |resumeData.education|
      modifies this
      ensures resumeData == ResumeEdits.EditEducation(old(resumeData), index, field, value) && Scored()
    {
      resumeData := ResumeEdits.EditEducation(resumeData, index, field, value);
      Rescore();
    }

    method EditProject(index: nat, field: ResumeEdits.ProjectField, value: string)
      requires index < |resumeData.projects|
      modifies this
      ensures resumeData == ResumeEdits.EditProject(old(resumeData), index, field, value) && Scored()
    {
      resumeData := ResumeEdits.EditProject(resumeData, index, field, value);
      Rescore();
    }

    method EditCertification(index: nat, field: ResumeEdits.CertificationField, value: string)
      requires index < |resumeData.certifications|
      modifies this
      ensures resumeData == ResumeEdits.EditCertification(old(resumeData), index, field, value) && Scored()
    {
      resumeData := ResumeEdits.EditCertification(resumeData, index, field, value);
      Rescore();
    }
  }
}
