/**
 * The builder's state transitions on the resume document: replacing one section,
 * appending a blank entry, removing an entry by index, adding and removing skills,
 * and the field edits the form's inputs perform. Each is a total function from the
 * old document to the new one.
 */
module ResumeEdits {
  import opened Text
  import opened Seqs
  import opened ResumeModel
  import opened LiveScore

  /** The seven keys of the document, as `updateResumeData` names them. */
  datatype Section =
    | HeaderSection | SummarySection | EducationSection | ExperienceSection
    | SkillsSection | ProjectsSection | CertificationsSection

  /** A value for one section: the `data` argument of `updateResumeData`. */
  datatype SectionValue =
    | HeaderValue(header: Header)
    | SummaryValue(summary: string)
    | EducationValue(education: seq<Education>)
    | ExperienceValue(experience: seq<Experience>)
    | SkillsValue(skills: Skills)
    | ProjectsValue(projects: seq<Project>)
    | CertificationsValue(certifications: seq<Certification>)
  {
    function Key(): Section {
      match this
      case HeaderValue(_) => HeaderSection
      case SummaryValue(_) => SummarySection
      case EducationValue(_) => EducationSection
      case ExperienceValue(_) => ExperienceSection
      case SkillsValue(_) => SkillsSection
      case ProjectsValue(_) => ProjectsSection
      case CertificationsValue(_) => CertificationsSection
    }
  }

  /** `doc[section]`. */
  function Get(doc: ResumeDocument, section: Section): (v: SectionValue)
    ensures v.Key() == section
  {
    match section
    case HeaderSection => HeaderValue(doc.header)
    case SummarySection => SummaryValue(doc.summary)
    case EducationSection => EducationValue(doc.education)
    case ExperienceSection => ExperienceValue(doc.experience)
    case SkillsSection => SkillsValue(doc.skills)
    case ProjectsSection => ProjectsValue(doc.projects)
    case CertificationsSection => CertificationsValue(doc.certifications)
  }

  /** Every section other than `section` is the same in both documents. */
  predicate AgreeOutside(a: ResumeDocument, b: ResumeDocument, section: Section) {
    forall other :: other != section ==> Get(a, other) == Get(b, other)
  }

  /** `updateResumeData(section, data)`: `{...prev, [section]: data}`. */
  function UpdateResumeData(doc: ResumeDocument, data: SectionValue): (r: ResumeDocument)
    ensures Get(r, data.Key()) == data
    ensures AgreeOutside(r, doc, data.Key())
  {
    match data
    case HeaderValue(h) => doc.(header := h)
    case SummaryValue(s) => doc.(summary := s)
    case EducationValue(es) => doc.(education := es)
    case ExperienceValue(es) => doc.(experience := es)
    case SkillsValue(sk) => doc.(skills := sk)
    case ProjectsValue(ps) => doc.(projects := ps)
    case CertificationsValue(cs) => doc.(certifications := cs)
  }

  /** Two documents that agree on every section are equal. */
  lemma Extensionality(a: ResumeDocument, b: ResumeDocument)
    requires forall section :: Get(a, section) == Get(b, section)
    ensures a == b
  {
    assert Get(a, HeaderSection) == Get(b, HeaderSection);
    assert Get(a, SummarySection) == Get(b, SummarySection);
    assert Get(a, EducationSection) == Get(b, EducationSection);
    assert Get(a, ExperienceSection) == Get(b, ExperienceSection);
    assert Get(a, SkillsSection) == Get(b, SkillsSection);
    assert Get(a, ProjectsSection) == Get(b, ProjectsSection);
    assert Get(a, CertificationsSection) == Get(b, CertificationsSection);
  }

  /** Writing back what a section already holds changes nothing. */
  lemma UpdateWithCurrentIsIdentity(doc: ResumeDocument, section: Section)
    ensures UpdateResumeData(doc, Get(doc, section)) == doc
  {
    var r := UpdateResumeData(doc, Get(doc, section));
    forall other ensures Get(r, other) == Get(doc, other) {
      if other != section {
        assert AgreeOutside(r, doc, section);
      }
    }
    Extensionality(r, doc);
  }

  /** Of two updates to the same section, the later one wins. */
  lemma LaterUpdateWins(doc: ResumeDocument, first: SectionValue, second: SectionValue)
    requires first.Key() == second.Key()
    ensures UpdateResumeData(UpdateResumeData(doc, first), second) == UpdateResumeData(doc, second)
  {
    var a := UpdateResumeData(UpdateResumeData(doc, first), second);
    var b := UpdateResumeData(doc, second);
    forall other ensures Get(a, other) == Get(b, other) {
      if other != second.Key() {
        assert AgreeOutside(UpdateResumeData(doc, first), doc, first.Key());
        assert Get(a, other) == Get(UpdateResumeData(doc, first), other);
      }
    }
    Extensionality(a, b);
  }

  /** The document key of a list section. */
  function KeyOf(section: ListSection): Section {
    match section
    case EducationList => EducationSection
    case ExperienceList => ExperienceSection
    case ProjectList => ProjectsSection
    case CertificationList => CertificationsSection
  }

  /**
   * `addArrayItem(section)`: the section's blank template appended at the end; the
   * old entries stay where they were and no other section changes.
   */
  function AddArrayItem(doc: ResumeDocument, section: ListSection): (r: ResumeDocument)
    ensures ListLength(r, section) == ListLength(doc, section) + 1
    ensures AgreeOutside(r, doc, KeyOf(section))
    ensures section == EducationList ==>
      r.education[..|doc.education|] == doc.education && r.education[|doc.education|] == BlankEducation
    ensures section == ExperienceList ==>
      r.experience[..|doc.experience|] == doc.experience && r.experience[|doc.experience|] == BlankExperience
    ensures section == ProjectList ==>
      r.projects[..|doc.projects|] == doc.projects && r.projects[|doc.projects|] == BlankProject
    ensures section == CertificationList ==>
      r.certifications[..|doc.certifications|] == doc.certifications
      && r.certifications[|doc.certifications|] == BlankCertification
  {
    match section
    case EducationList => UpdateResumeData(doc, EducationValue(doc.education + [BlankEducation]))
    case ExperienceList => UpdateResumeData(doc, ExperienceValue(doc.experience + [BlankExperience]))
    case ProjectList => UpdateResumeData(doc, ProjectsValue(doc.projects + [BlankProject]))
    case CertificationList =>
      UpdateResumeData(doc, CertificationsValue(doc.certifications + [BlankCertification]))
  }

  /**
   * `removeArrayItem(section, index)`: `filter((_, i) => i !== index)`, so exactly the
   * entry at `index` goes, the rest keep their order, and an index outside the list
   * changes nothing. There is no length guard here; the page only offers the control
   * when the list has more than one entry.
   */
  function RemoveArrayItem(doc: ResumeDocument, section: ListSection, index: int): (r: ResumeDocument)
    ensures AgreeOutside(r, doc, KeyOf(section))
    ensures 0 <= index < ListLength(doc, section) ==> ListLength(r, section) == ListLength(doc, section) - 1
    ensures !(0 <= index < ListLength(doc, section)) ==> r == doc
    ensures section == EducationList ==> r.education == RemoveAt(doc.education, index)
    ensures section == ExperienceList ==> r.experience == RemoveAt(doc.experience, index)
    ensures section == ProjectList ==> r.projects == RemoveAt(doc.projects, index)
    ensures section == CertificationList ==> r.certifications == RemoveAt(doc.certifications, index)
  {
    match section
    case EducationList => UpdateResumeData(doc, EducationValue(RemoveAt(doc.education, index)))
    case ExperienceList => UpdateResumeData(doc, ExperienceValue(RemoveAt(doc.experience, index)))
    case ProjectList => UpdateResumeData(doc, ProjectsValue(RemoveAt(doc.projects, index)))
    case CertificationList => UpdateResumeData(doc, CertificationsValue(RemoveAt(doc.certifications, index)))
  }

  /** Removing the entry just appended gives back the document before the append. */
  lemma AddThenRemoveLast(doc: ResumeDocument, section: ListSection)
    ensures RemoveArrayItem(AddArrayItem(doc, section), section, ListLength(doc, section)) == doc
  {
    match section
    case EducationList => AppendThenRemoveLast(doc.education, BlankEducation);
    case ExperienceList => AppendThenRemoveLast(doc.experience, BlankExperience);
    case ProjectList => AppendThenRemoveLast(doc.projects, BlankProject);
    case CertificationList => AppendThenRemoveLast(doc.certifications, BlankCertification);
  }

  /** The list a skill kind names: `skills[type]`. */
  function SkillList(skills: Skills, kind: SkillKind): seq<string> {
    match kind
    case Technical => skills.technical
    case Soft => skills.soft
  }

  /** The input buffer a skill kind names: `skills['new' + Type]`. */
  function SkillBuffer(skills: Skills, kind: SkillKind): string {
    match kind
    case Technical => skills.newTechnical
    case Soft => skills.newSoft
  }

  /** The other skill kind. */
  function Other(kind: SkillKind): SkillKind {
    match kind
    case Technical => Soft
    case Soft => Technical
  }

  /**
   * `addSkill(type)`: a non-blank buffer is trimmed, appended to its list and cleared;
   * a blank buffer leaves the document exactly as it was. Only the skills change.
   */
  function AddSkill(doc: ResumeDocument, kind: SkillKind): (r: ResumeDocument)
    ensures AgreeOutside(r, doc, SkillsSection)
    ensures SkillList(r.skills, Other(kind)) == SkillList(doc.skills, Other(kind))
    ensures SkillBuffer(r.skills, Other(kind)) == SkillBuffer(doc.skills, Other(kind))
    ensures IsBlank(SkillBuffer(doc.skills, kind)) ==> r == doc
    ensures !IsBlank(SkillBuffer(doc.skills, kind)) ==>
      SkillList(r.skills, kind) == SkillList(doc.skills, kind) + [Trim(SkillBuffer(doc.skills, kind))]
      && SkillBuffer(r.skills, kind) == ""
  {
    var skill := Trim(SkillBuffer(doc.skills, kind));
    TrimEmptyIffBlank(SkillBuffer(doc.skills, kind));
    if skill == "" then doc
    else
      match kind
      case Technical =>
        UpdateResumeData(doc, SkillsValue(doc.skills.(technical := doc.skills.technical + [skill], newTechnical := "")))
      case Soft =>
        UpdateResumeData(doc, SkillsValue(doc.skills.(soft := doc.skills.soft + [skill], newSoft := "")))
  }

  /**
   * `removeSkill(type, index)`: exactly the skill at `index` of that list goes; the
   * other list and both buffers are untouched.
   */
  function RemoveSkill(doc: ResumeDocument, kind: SkillKind, index: int): (r: ResumeDocument)
    ensures AgreeOutside(r, doc, SkillsSection)
    ensures SkillList(r.skills, kind) == RemoveAt(SkillList(doc.skills, kind), index)
    ensures SkillList(r.skills, Other(kind)) == SkillList(doc.skills, Other(kind))
    ensures r.skills.newTechnical == doc.skills.newTechnical && r.skills.newSoft == doc.skills.newSoft
  {
    match kind
    case Technical =>
      UpdateResumeData(doc, SkillsValue(doc.skills.(technical := RemoveAt(doc.skills.technical, index))))
    case Soft =>
      UpdateResumeData(doc, SkillsValue(doc.skills.(soft := RemoveAt(doc.skills.soft, index))))
  }

  /** Adding a typed skill and then removing the last skill of that list restores the list. */
  lemma AddThenRemoveSkill(doc: ResumeDocument, kind: SkillKind)
    requires !IsBlank(SkillBuffer(doc.skills, kind))
    ensures SkillList(RemoveSkill(AddSkill(doc, kind), kind, |SkillList(doc.skills, kind)|).skills, kind)
      == SkillList(doc.skills, kind)
  {
    AppendThenRemoveLast(SkillList(doc.skills, kind), Trim(SkillBuffer(doc.skills, kind)));
  }

  /** Typing into a skill input: `updateResumeData('skills', {...skills, new<Type>: value})`. */
  function TypeSkill(doc: ResumeDocument, kind: SkillKind, value: string): (r: ResumeDocument)
    ensures AgreeOutside(r, doc, SkillsSection)
    ensures SkillBuffer(r.skills, kind) == value
    ensures SkillList(r.skills, Technical) == doc.skills.technical && SkillList(r.skills, Soft) == doc.skills.soft
    ensures SkillBuffer(r.skills, Other(kind)) == SkillBuffer(doc.skills, Other(kind))
  {
    match kind
    case Technical => UpdateResumeData(doc, SkillsValue(doc.skills.(newTechnical := value)))
    case Soft => UpdateResumeData(doc, SkillsValue(doc.skills.(newSoft := value)))
  }

  /** The six contact inputs. */
  datatype HeaderField = FullName | Email | Phone | Location | LinkedIn | GitHub

  function HeaderFieldValue(h: Header, field: HeaderField): string {
    match field
    case FullName => h.fullName
    case Email => h.email
    case Phone => h.phone
    case Location => h.location
    case LinkedIn => h.linkedin
    case GitHub => h.github
  }

  /** A contact input: `updateResumeData('header', {...header, field: value})`. */
  function EditHeader(doc: ResumeDocument, field: HeaderField, value: string): (r: ResumeDocument)
    ensures AgreeOutside(r, doc, HeaderSection)
    ensures HeaderFieldValue(r.header, field) == value
    ensures forall other :: other != field ==> HeaderFieldValue(r.header, other) == HeaderFieldValue(doc.header, other)
  {
    var h := doc.header;
    var h' := match field
      case FullName => h.(fullName := value)
      case Email => h.(email := value)
      case Phone => h.(phone := value)
      case Location => h.(location := value)
      case LinkedIn => h.(linkedin := value)
      case GitHub => h.(github := value);
    UpdateResumeData(doc, HeaderValue(h'))
  }

  /** The summary text area: `updateResumeData('summary', value)`. */
  function EditSummary(doc: ResumeDocument, value: string): (r: ResumeDocument)
    ensures AgreeOutside(r, doc, SummarySection) && r.summary == value
  {
    UpdateResumeData(doc, SummaryValue(value))
  }

  /** The inputs of one experience entry. */
  datatype ExperienceField = ExpTitle | ExpCompany | ExpDuration | ExpDescription

  function ExperienceFieldValue(e: Experience, field: ExperienceField): string {
    match field
    case ExpTitle => e.title
    case ExpCompany => e.company
    case ExpDuration => e.duration
    case ExpDescription => e.description
  }

  function SetExperienceField(e: Experience, field: ExperienceField, value: string): (r: Experience)
    ensures ExperienceFieldValue(r, field) == value && r.achievements == e.achievements
    ensures forall other :: other != field ==> ExperienceFieldValue(r, other) == ExperienceFieldValue(e, other)
  {
    match field
    case ExpTitle => e.(title := value)
    case ExpCompany => e.(company := value)
    case ExpDuration => e.(duration := value)
    case ExpDescription => e.(description := value)
  }

  /**
   * An experience input: entry `index` of a copy of the list gets the new field value,
   * and the copy is written back with `updateResumeData`. `index` comes from mapping
   * over the list, so it is always in range.
   */
  function EditExperience(doc: ResumeDocument, index: nat, field: ExperienceField, value: string): (r: ResumeDocument)
    requires index < |doc.experience|
    ensures AgreeOutside(r, doc, ExperienceSection) && |r.experience| == |doc.experience|
    ensures ExperienceFieldValue(r.experience[index], field) == value
    ensures forall other :: other != field ==>
      ExperienceFieldValue(r.experience[index], other) == ExperienceFieldValue(doc.experience[index], other)
    ensures r.experience[index].achievements == doc.experience[index].achievements
    ensures forall k :: 0 <= k < |doc.experience| && k != index ==> r.experience[k] == doc.experience[k]
  {
    UpdateResumeData(doc, ExperienceValue(doc.experience[index := SetExperienceField(doc.experience[index], field, value)]))
  }

  /** The inputs of one education entry (coursework has none). */
  datatype EducationField = EduDegree | EduInstitution | EduDuration | EduGpa

  function EducationFieldValue(e: Education, field: EducationField): string {
    match field
    case EduDegree => e.degree
    case EduInstitution => e.institution
    case EduDuration => e.duration
    case EduGpa => e.gpa
  }

  function SetEducationField(e: Education, field: EducationField, value: string): (r: Education)
    ensures EducationFieldValue(r, field) == value && r.coursework == e.coursework
    ensures forall other :: other != field ==> EducationFieldValue(r, other) == EducationFieldValue(e, other)
  {
    match field
    case EduDegree => e.(degree := value)
    case EduInstitution => e.(institution := value)
    case EduDuration => e.(duration := value)
    case EduGpa => e.(gpa := value)
  }

  /** An education input, written back like the experience inputs. */
  function EditEducation(doc: ResumeDocument, index: nat, field: EducationField, value: string): (r: ResumeDocument)
    requires index < |doc.education|
    ensures AgreeOutside(r, doc, EducationSection) && |r.education| == |doc.education|
    ensures EducationFieldValue(r.education[index], field) == value
    ensures forall other :: other != field ==>
      EducationFieldValue(r.education[index], other) == EducationFieldValue(doc.education[index], other)
    ensures r.education[index].coursework == doc.education[index].coursework
    ensures forall k :: 0 <= k < |doc.education| && k != index ==> r.education[k] == doc.education[k]
  {
    UpdateResumeData(doc, EducationValue(doc.education[index := SetEducationField(doc.education[index], field, value)]))
  }

  /** The inputs of one project entry (duration has none). */
  datatype ProjectField = ProjTitle | ProjTechnologies | ProjLink | ProjDescription

  function ProjectFieldValue(p: Project, field: ProjectField): string {
    match field
    case ProjTitle => p.title
    case ProjTechnologies => p.technologies
    case ProjLink => p.link
    case ProjDescription => p.description
  }

  function SetProjectField(p: Project, field: ProjectField, value: string): (r: Project)
    ensures ProjectFieldValue(r, field) == value && r.duration == p.duration
    ensures forall other :: other != field ==> ProjectFieldValue(r, other) == ProjectFieldValue(p, other)
  {
    match field
    case ProjTitle => p.(title := value)
    case ProjTechnologies => p.(technologies := value)
    case ProjLink => p.(link := value)
    case ProjDescription => p.(description := value)
  }

  /** A project input, written back like the experience inputs. */
  function EditProject(doc: ResumeDocument, index: nat, field: ProjectField, value: string): (r: ResumeDocument)
    requires index < |doc.projects|
    ensures AgreeOutside(r, doc, ProjectsSection) && |r.projects| == |doc.projects|
    ensures ProjectFieldValue(r.projects[index], field) == value
    ensures forall other :: other != field ==>
      ProjectFieldValue(r.projects[index], other) == ProjectFieldValue(doc.projects[index], other)
    ensures r.projects[index].duration == doc.projects[index].duration
    ensures forall k :: 0 <= k < |doc.projects| && k != index ==> r.projects[k] == doc.projects[k]
  {
    UpdateResumeData(doc, ProjectsValue(doc.projects[index := SetProjectField(doc.projects[index], field, value)]))
  }

  /** The inputs of one certification entry (the credential id has none). */
  datatype CertificationField = CertName | CertIssuer | CertDate

  function CertificationFieldValue(c: Certification, field: CertificationField): string {
    match field
    case CertName => c.name
    case CertIssuer => c.issuer
    case CertDate => c.date
  }

  function SetCertificationField(c: Certification, field: CertificationField, value: string): (r: Certification)
    ensures CertificationFieldValue(r, field) == value && r.credentialId == c.credentialId
    ensures forall other :: other != field ==> CertificationFieldValue(r, other) == CertificationFieldValue(c, other)
  {
    match field
    case CertName => c.(name := value)
    case CertIssuer => c.(issuer := value)
    case CertDate => c.(date := value)
  }

  /** A certification input, written back like the experience inputs. */
  function EditCertification(doc: ResumeDocument, index: nat, field: CertificationField, value: string): (r: ResumeDocument)
    requires index < |doc.certifications|
    ensures AgreeOutside(r, doc, CertificationsSection) && |r.certifications| == |doc.certifications|
    ensures CertificationFieldValue(r.certifications[index], field) == value
    ensures forall other :: other != field ==>
      CertificationFieldValue(r.certifications[index], other) == CertificationFieldValue(doc.certifications[index], other)
    ensures r.certifications[index].credentialId == doc.certifications[index].credentialId
    ensures forall k :: 0 <= k < |doc.certifications| && k != index ==> r.certifications[k] == doc.certifications[k]
  {
    UpdateResumeData(doc, CertificationsValue(
      doc.certifications[index := SetCertificationField(doc.certifications[index], field, value)]))
  }

  /** The list controls the page offers: "Add" always, the delete button only beside two or more entries. */
  datatype ListAction = Add(section: ListSection) | Remove(section: ListSection, index: int)

  predicate Offered(doc: ResumeDocument, action: ListAction) {
    match action
    case Add(_) => true
    case Remove(section, index) => ListLength(doc, section) > 1 && 0 <= index < ListLength(doc, section)
  }

  function ApplyListAction(doc: ResumeDocument, action: ListAction): ResumeDocument {
    match action
    case Add(section) => AddArrayItem(doc, section)
    case Remove(section, index) => RemoveArrayItem(doc, section, index)
  }

  /** A list section's length is the length of that key's list. */
  lemma ListLengthOfKey(a: ResumeDocument, b: ResumeDocument, section: ListSection)
    requires Get(a, KeyOf(section)) == Get(b, KeyOf(section))
    ensures ListLength(a, section) == ListLength(b, section)
  {
  }

  /** Through the controls the page offers, no list ever becomes empty. */
  lemma OfferedActionsKeepListsNonEmpty(doc: ResumeDocument, action: ListAction)
    requires ListsNonEmpty(doc) && Offered(doc, action)
    ensures ListsNonEmpty(ApplyListAction(doc, action))
  {
    var r := ApplyListAction(doc, action);
    forall section ensures ListLength(r, section) >= 1 {
      assert ListLength(doc, section) >= 1;
      if section != action.section {
        assert KeyOf(section) != KeyOf(action.section);
        assert AgreeOutside(r, doc, KeyOf(action.section));
        ListLengthOfKey(r, doc, section);
      }
    }
  }

  /** The delete function itself does not guard: removing the only entry empties the list. */
  lemma RemovingOnlyEntryEmptiesList(doc: ResumeDocument, section: ListSection)
    requires ListLength(doc, section) == 1
    ensures ListLength(RemoveArrayItem(doc, section, 0), section) == 0
  {
  }

  /** The initial document has an entry in every list. */
  lemma InitialListsNonEmpty()
    ensures ListsNonEmpty(InitialResume())
  {
    var doc := InitialResume();
    forall section ensures ListLength(doc, section) >= 1 {
    }
  }

  /** A blank entry is never valid, so appending one leaves every measure of the document as it was. */
  lemma AddBlankKeepsMeasures(doc: ResumeDocument, section: ListSection)
    ensures SameMeasures(AddArrayItem(doc, section), doc)
  {
    var r := AddArrayItem(doc, section);
    assert Trim("") == "";
    match section
    case EducationList =>
      assert r == doc.(education := doc.education + [BlankEducation]);
      FilterAppend(doc.education, [BlankEducation], ValidEducation);
    case ExperienceList =>
      assert r == doc.(experience := doc.experience + [BlankExperience]);
      FilterAppend(doc.experience, [BlankExperience], ValidExperience);
    case ProjectList =>
      assert r == doc.(projects := doc.projects + [BlankProject]);
      FilterAppend(doc.projects, [BlankProject], ValidProject);
    case CertificationList =>
      assert r == doc.(certifications := doc.certifications + [BlankCertification]);
  }

  /** Appending a blank entry changes neither the score nor the feedback. */
  lemma AddBlankKeepsScore(doc: ResumeDocument, section: ListSection)
    ensures Score(AddArrayItem(doc, section)) == Score(doc)
    ensures Feedback(AddArrayItem(doc, section)) == Feedback(doc)
  {
    AddBlankKeepsMeasures(doc, section);
    MeasuresDetermineResult(AddArrayItem(doc, section), doc);
  }

  /** Skills are scored by count: adding a typed skill adds one to the count. */
  lemma AddSkillCount(doc: ResumeDocument, kind: SkillKind)
    ensures SkillCount(AddSkill(doc, kind)) == SkillCount(doc) + (if IsBlank(SkillBuffer(doc.skills, kind)) then 0 else 1)
  {
  }
}
