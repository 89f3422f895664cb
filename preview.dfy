/**
 * What the live preview (`components/Preview.tsx`) shows for a document: the
 * header with its placeholders, the contact line, and the sections that
 * appear, in page order. Markup, styling and the mobile scaling are not part
 * of the page value.
 */
module Preview {
  import opened Wrappers
  import opened Text
  import opened ResumeTypes
  import App
  import Editor
  import Skills
  import GeminiService

  /** What an experience entry shows: the description is shown, the id is only a key. */
  datatype ExperienceCard = ExperienceCard(title: string, startDate: string, endDate: string, company: string, description: string)

  /** An education entry shows no description. */
  datatype EducationCard = EducationCard(school: string, startDate: string, endDate: string, degree: string)

  /** A project shows neither its link nor its technologies. */
  datatype ProjectCard = ProjectCard(name: string, description: string)

  /**
   * The page: the header, the contact line, then the five body sections in
   * page order, each `None` when it is not rendered.
   */
  datatype Page = Page(
    name: string,
    jobTitle: string,
    contacts: seq<string>,
    profile: Option<string>,
    experience: Option<seq<ExperienceCard>>,
    education: Option<seq<EducationCard>>,
    projects: Option<seq<ProjectCard>>,
    skills: Option<seq<string>>)

  const NamePlaceholder := "Your Name"
  const JobTitlePlaceholder := "Job Title"

  function ExperienceCards(xs: seq<ExperienceItem>): (r: seq<ExperienceCard>)
    ensures |r| == |xs|
    ensures forall k :: 0 <= k < |r| ==>
      r[k] == ExperienceCard(xs[k].title, xs[k].startDate, xs[k].endDate, xs[k].company, xs[k].description)
  {
    seq(|xs|, k requires 0 <= k < |xs| =>
      ExperienceCard(xs[k].title, xs[k].startDate, xs[k].endDate, xs[k].company, xs[k].description))
  }

  function EducationCards(xs: seq<EducationItem>): (r: seq<EducationCard>)
    ensures |r| == |xs|
    ensures forall k :: 0 <= k < |r| ==> r[k] == EducationCard(xs[k].school, xs[k].startDate, xs[k].endDate, xs[k].degree)
  {
    seq(|xs|, k requires 0 <= k < |xs| => EducationCard(xs[k].school, xs[k].startDate, xs[k].endDate, xs[k].degree))
  }

  function ProjectCards(xs: seq<ProjectItem>): (r: seq<ProjectCard>)
    ensures |r| == |xs|
    ensures forall k :: 0 <= k < |r| ==> r[k] == ProjectCard(xs[k].name, xs[k].description)
  {
    seq(|xs|, k requires 0 <= k < |xs| => ProjectCard(xs[k].name, xs[k].description))
  }

  /** `x || placeholder` on a string: the empty string is falsy. */
  function OrPlaceholder(x: string, placeholder: string): (r: string)
    ensures x != [] ==> r == x
    ensures x == [] ==> r == placeholder
  {
    if x != "" then x else placeholder
  }

  /** The contact line: email, phone, location and LinkedIn, each only when non-empty. */
  function Contacts(p: PersonalInfo): (r: seq<string>)
    ensures |r| <= 4
    ensures forall k :: 0 <= k < |r| ==> r[k] != []
    ensures p.email in r <==> p.email != []
    ensures p.phone in r <==> p.phone != []
    ensures p.location in r <==> p.location != []
    ensures p.linkedin in r <==> p.linkedin != []
    ensures forall c :: c in r ==> c in [p.email, p.phone, p.location, p.linkedin]
  {
    DropEmpty([p.email, p.phone, p.location, p.linkedin])
  }

  /** The skill chips: `skills.map(s => s.trim() && chip(s.trim()))`. */
  function Chips(skills: seq<string>): (r: seq<string>)
    ensures |r| <= |skills|
    ensures forall k :: 0 <= k < |r| ==> r[k] != [] && IsTrimmed(r[k])
    ensures forall k :: 0 <= k < |skills| && !IsBlank(skills[k]) ==> Trim(skills[k]) in r
    ensures forall k :: 0 <= k < |r| ==> exists i :: 0 <= i < |skills| && !IsBlank(skills[i]) && r[k] == Trim(skills[i])
  {
    var r := TrimmedNonBlank(skills);
    forall k | 0 <= k < |skills| && !IsBlank(skills[k])
      ensures Trim(skills[k]) in r
    {
      TrimmedNonBlankKeepsItems(skills, k);
    }
    forall k | 0 <= k < |r|
      ensures exists i :: 0 <= i < |skills| && !IsBlank(skills[i]) && r[k] == Trim(skills[i])
    {
      TrimmedNonBlankFromItems(skills, k);
    }
    r
  }

  /**
   * The chips keep the skills' order: the chips of two runs of skills are
   * the chips of the first run followed by those of the second, and one
   * skill gives its trim, or nothing when it is blank.
   */
  lemma ChipsKeepOrder(a: seq<string>, b: seq<string>, x: string)
    ensures Chips(a + b) == Chips(a) + Chips(b)
    ensures Chips([x]) == if IsBlank(x) then [] else [Trim(x)]
  {
    TrimmedNonBlankAppend(a, b);
    TrimmedNonBlankSingle(x);
  }

  /** The page the preview renders for a document. */
  function Render(d: ResumeData): (r: Page)
    ensures d.personalInfo.fullName != [] ==> r.name == d.personalInfo.fullName
    ensures d.personalInfo.fullName == [] ==> r.name == NamePlaceholder
    ensures d.personalInfo.jobTitle != [] ==> r.jobTitle == d.personalInfo.jobTitle
    ensures d.personalInfo.jobTitle == [] ==> r.jobTitle == JobTitlePlaceholder
    ensures r.contacts == Contacts(d.personalInfo)
    ensures r.profile.Some? <==> d.summary != []
    ensures r.profile.Some? ==> r.profile.value == d.summary
    ensures r.experience.Some? <==> |d.experience| > 0
    ensures r.experience.Some? ==> r.experience.value == ExperienceCards(d.experience)
    ensures r.education.Some? <==> |d.education| > 0
    ensures r.education.Some? ==> r.education.value == EducationCards(d.education)
    ensures r.projects.Some? <==> |d.projects| > 0
    ensures r.projects.Some? ==> r.projects.value == ProjectCards(d.projects)
    ensures r.skills.Some? <==> !AllBlank(d.skills)
    ensures r.skills.Some? ==> r.skills.value == Chips(d.skills)
  {
    Page(OrPlaceholder(d.personalInfo.fullName, NamePlaceholder),
         OrPlaceholder(d.personalInfo.jobTitle, JobTitlePlaceholder),
         Contacts(d.personalInfo),
         if d.summary != "" then Some(d.summary) else None,
         if |d.experience| > 0 then Some(ExperienceCards(d.experience)) else None,
         if |d.education| > 0 then Some(EducationCards(d.education)) else None,
         if |d.projects| > 0 then Some(ProjectCards(d.projects)) else None,
         // `skills.some(s => s.trim())`: some skill has a non-empty trim
         if !AllBlank(d.skills) then Some(Chips(d.skills)) else None)
  }

  /** The skills section is rendered exactly when it has at least one chip to show. */
  lemma SkillsShownIffChips(d: ResumeData)
    ensures Render(d).skills.Some? <==> Chips(d.skills) != []
  {
  }

  /** A new document shows both placeholders and nothing else. */
  lemma InitialPageIsPlaceholders()
    ensures Render(App.InitialData()) == Page(NamePlaceholder, JobTitlePlaceholder, [], None, None, None, None, None)
  {
    var d := App.InitialData();
    assert AllBlank(d.skills);
    assert Contacts(d.personalInfo) == [];
  }

  /** After "Add Position" the experience section is shown, ending with an empty card. */
  lemma AddPositionShowsEmptyCard(d: ResumeData, id: string)
    ensures var page := Render(Editor.AddPosition(d, id));
      && page.experience.Some?
      && |page.experience.value| == |d.experience| + 1
      && page.experience.value[|d.experience|] == ExperienceCard("", "", "", "", "")
  {
  }

  /** Accepting any AI summary suggestion makes the profile section appear, showing it. */
  lemma SummarySuggestionIsShown(d: ResumeData, reply: GeminiService.Reply)
    ensures var suggestion := GeminiService.GenerateResumeContent(reply);
      Render(Editor.SetSummary(d, suggestion)).profile == Some(suggestion)
  {
  }

  /** A skill with visible content added from a chip is shown, trimmed, among the chips. */
  lemma AddedSkillIsShown(d: ResumeData, skill: string)
    requires !IsBlank(Skills.StripQuotes(skill))
    ensures var page := Render(Skills.AddSkill(d, skill));
      page.skills.Some? && Trim(Skills.StripQuotes(skill)) in page.skills.value
  {
    var e := Skills.AddSkill(d, skill);
    var i :| 0 <= i < |e.skills| && e.skills[i] == Skills.StripQuotes(skill);
    assert !AllBlank(e.skills);
  }

}
