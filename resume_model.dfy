/**
 * The resume document the builder page edits: contact header, summary, four lists of
 * entries and the two skill lists with their pending-input buffers.
 */
module ResumeModel {

  datatype Header = Header(
    fullName: string, email: string, phone: string,
    linkedin: string, github: string, location: string)

  datatype Education = Education(
    degree: string, institution: string, duration: string, gpa: string, coursework: string)

  datatype Experience = Experience(
    title: string, company: string, duration: string, description: string,
    achievements: seq<string>)

  /** The skill lists and the text typed into the two "add skill" inputs. */
  datatype Skills = Skills(
    technical: seq<string>, soft: seq<string>, newTechnical: string, newSoft: string)

  datatype Project = Project(
    title: string, description: string, technologies: string, link: string, duration: string)

  datatype Certification = Certification(
    name: string, issuer: string, date: string, credentialId: string)

  datatype ResumeDocument = ResumeDocument(
    header: Header,
    summary: string,
    education: seq<Education>,
    experience: seq<Experience>,
    skills: Skills,
    projects: seq<Project>,
    certifications: seq<Certification>)

  /** `Object.values(header)`: the six header fields in declaration order. */
  function HeaderValues(h: Header): (vs: seq<string>)
    ensures |vs| == 6
  {
    [h.fullName, h.email, h.phone, h.linkedin, h.github, h.location]
  }

  /** The templates `addArrayItem` appends: every field blank, one blank achievement. */
  const BlankEducation := Education("", "", "", "", "")
  const BlankExperience := Experience("", "", "", "", [""])
  const BlankProject := Project("", "", "", "", "")
  const BlankCertification := Certification("", "", "", "")

  /** The document the builder starts with. */
  function InitialResume(): (doc: ResumeDocument)
    ensures doc.header == Header("", "", "", "", "", "") && doc.summary == ""
    ensures doc.education == [BlankEducation] && doc.experience == [BlankExperience]
    ensures doc.projects == [BlankProject] && doc.certifications == [BlankCertification]
    ensures doc.skills == Skills([], [], "", "")
  {
    ResumeDocument(
      Header("", "", "", "", "", ""), "",
      [BlankEducation], [BlankExperience], Skills([], [], "", ""),
      [BlankProject], [BlankCertification])
  }

  /** The four list-valued sections. */
  datatype ListSection = EducationList | ExperienceList | ProjectList | CertificationList

  function ListLength(doc: ResumeDocument, section: ListSection): nat {
    match section
    case EducationList => |doc.education|
    case ExperienceList => |doc.experience|
    case ProjectList => |doc.projects|
    case CertificationList => |doc.certifications|
  }

  /** The invariant the page keeps through its controls: every list has an entry. */
  predicate ListsNonEmpty(doc: ResumeDocument) {
    forall section :: ListLength(doc, section) >= 1
  }

  /** The two skill lists, named `type` in the source. */
  datatype SkillKind = Technical | Soft
}
