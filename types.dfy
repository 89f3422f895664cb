/** The résumé document and its entries, as declared in `types.ts`. */
module ResumeTypes {
  import opened Wrappers

  datatype ExperienceItem = ExperienceItem(
    id: string,
    title: string,
    company: string,
    startDate: string,
    endDate: string,
    description: string)

  datatype EducationItem = EducationItem(
    id: string,
    degree: string,
    school: string,
    startDate: string,
    endDate: string,
    description: string)

  /** `link` is the optional `link?: string`. */
  datatype ProjectItem = ProjectItem(
    id: string,
    name: string,
    link: Option<string>,
    description: string,
    technologies: seq<string>)

  datatype PersonalInfo = PersonalInfo(
    fullName: string,
    email: string,
    phone: string,
    linkedin: string,
    location: string,
    jobTitle: string)

  datatype ResumeData = ResumeData(
    personalInfo: PersonalInfo,
    summary: string,
    experience: seq<ExperienceItem>,
    education: seq<EducationItem>,
    skills: seq<string>,
    projects: seq<ProjectItem>)

  /** The editor sections the sidebar can select. */
  datatype SectionType = Personal | Summary | Experience | Education | Skills | Projects | JobMatch
}
