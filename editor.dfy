/**
 * The document edits of the editor form (`components/Editor.tsx`).
 *
 * Every handler builds the next `ResumeData` from the current one and hands it
 * to `onChange`. Appending an entry and editing personal details or the
 * summary are pure spreads. Deleting an entry copies the list into a fresh
 * array and splices it in place. Editing a field of an entry copies the list
 * SHALLOWLY and assigns into the entry object, which the previous document
 * still references: the classes below model those entry objects.
 */
module Editor {
  import opened Wrappers
  import opened ResumeTypes
  import opened Text

  // ---------------------------------------------------------------------------
  // Deleting an entry: `const copy = [...list]; copy.splice(index, 1)`

  /** `list.splice(index, 1)` on a copy: drops the item at `index`; an index past the end removes nothing. */
  function RemoveAt<T>(s: seq<T>, index: nat): (r: seq<T>)
    ensures index < |s| ==> |r| == |s| - 1 && multiset(r) + multiset{s[index]} == multiset(s)
    ensures index >= |s| ==> r == s
    ensures forall k :: 0 <= k < index && k < |r| ==> r[k] == s[k]
    ensures forall k :: index <= k < |r| ==> r[k] == s[k + 1]
  {
    if index < |s| then
      assert s == s[..index] + [s[index]] + s[index + 1..];
      s[..index] + s[index + 1..]
    else s
  }

  /**
   * The delete handlers' body: copy the list into a fresh array, shift the
   * items after `index` one place left, and drop the last slot.
   */
  method SpliceOne<T>(list: seq<T>, index: nat) returns (r: seq<T>)
    ensures r == RemoveAt(list, index)
  {
    var a := new T[|list|](k requires 0 <= k < |list| => list[k]);
    if index >= a.Length {
      return a[..];
    }
    var k := index;
    while k + 1 < a.Length
      invariant index <= k < a.Length
      invariant a[..index] == list[..index]
      invariant a[index..k] == list[index + 1..k + 1]
      invariant a[k + 1..] == list[k + 1..]
    {
      a[k] := a[k + 1];
      k := k + 1;
    }
    r := a[..a.Length - 1];
    assert r == a[..index] + a[index..k];
  }

  /** Delete button of experience entry `index`. */
  method DeletePosition(d: ResumeData, index: nat) returns (r: ResumeData)
    requires index < |d.experience|
    ensures |r.experience| == |d.experience| - 1
    ensures r.experience == d.experience[..index] + d.experience[index + 1..]
    ensures r.(experience := d.experience) == d
  {
    var copy := SpliceOne(d.experience, index);
    r := d.(experience := copy);
  }

  /** Delete button of education entry `index`. */
  method DeleteSchool(d: ResumeData, index: nat) returns (r: ResumeData)
    requires index < |d.education|
    ensures |r.education| == |d.education| - 1
    ensures r.education == d.education[..index] + d.education[index + 1..]
    ensures r.(education := d.education) == d
  {
    var copy := SpliceOne(d.education, index);
    r := d.(education := copy);
  }

  /** Delete button of project `index`. */
  method DeleteProject(d: ResumeData, index: nat) returns (r: ResumeData)
    requires index < |d.projects|
    ensures |r.projects| == |d.projects| - 1
    ensures r.projects == d.projects[..index] + d.projects[index + 1..]
    ensures r.(projects := d.projects) == d
  {
    var copy := SpliceOne(d.projects, index);
    r := d.(projects := copy);
  }

  /** Close button of skill chip `index`. */
  method DeleteSkill(d: ResumeData, index: nat) returns (r: ResumeData)
    requires index < |d.skills|
    ensures |r.skills| == |d.skills| - 1
    ensures r.skills == d.skills[..index] + d.skills[index + 1..]
    ensures r.(skills := d.skills) == d
  {
    var copy := SpliceOne(d.skills, index);
    r := d.(skills := copy);
  }

  // ---------------------------------------------------------------------------
  // Appending an empty entry: `[...list, { id: Date.now().toString(), ... }]`

  function EmptyExperience(id: string): ExperienceItem
  {
    ExperienceItem(id, "", "", "", "", "")
  }

  function EmptyEducation(id: string): EducationItem
  {
    EducationItem(id, "", "", "", "", "")
  }

  /** A new project has no `link` property and no technologies. */
  function EmptyProject(id: string): ProjectItem
  {
    ProjectItem(id, "", None, "", [])
  }

  /** "Add Position": one blank entry at the end; nothing else changes. */
  function AddPosition(d: ResumeData, id: string): (r: ResumeData)
    ensures |r.experience| == |d.experience| + 1
    ensures r.experience[..|d.experience|] == d.experience
    ensures var e := r.experience[|d.experience|];
      e.id == id && forall f :: ExperienceFieldOf(e, f) == ""
    ensures r.(experience := d.experience) == d
  {
    d.(experience := d.experience + [EmptyExperience(id)])
  }

  /** "Add School": one blank entry at the end; nothing else changes. */
  function AddSchool(d: ResumeData, id: string): (r: ResumeData)
    ensures |r.education| == |d.education| + 1
    ensures r.education[..|d.education|] == d.education
    ensures var e := r.education[|d.education|];
      e.id == id && e.description == "" && forall f :: EducationFieldOf(e, f) == ""
    ensures r.(education := d.education) == d
  {
    d.(education := d.education + [EmptyEducation(id)])
  }

  /** "Add Project": one blank project at the end; nothing else changes. */
  function AddProject(d: ResumeData, id: string): (r: ResumeData)
    ensures |r.projects| == |d.projects| + 1
    ensures r.projects[..|d.projects|] == d.projects
    ensures var p := r.projects[|d.projects|];
      p.id == id && p.link == None && p.technologies == [] && forall f :: ProjectFieldOf(p, f) == ""
    ensures r.(projects := d.projects) == d
  {
    d.(projects := d.projects + [EmptyProject(id)])
  }

  // ---------------------------------------------------------------------------
  // Personal details and summary: `{ ...data, personalInfo: { ...data.personalInfo, f: v } }`

  /** The six inputs of the personal-details form. */
  datatype PersonalField = FullName | JobTitle | Email | Phone | Location | LinkedIn

  function PersonalFieldOf(p: PersonalInfo, f: PersonalField): string
  {
    match f
    case FullName => p.fullName
    case JobTitle => p.jobTitle
    case Email => p.email
    case Phone => p.phone
    case Location => p.location
    case LinkedIn => p.linkedin
  }

  /** Typing into one personal-details input changes that field and nothing else. */
  function SetPersonalField(d: ResumeData, f: PersonalField, value: string): (r: ResumeData)
    ensures forall g :: PersonalFieldOf(r.personalInfo, g) == if g == f then value else PersonalFieldOf(d.personalInfo, g)
    ensures r.(personalInfo := d.personalInfo) == d
  {
    var p := d.personalInfo;
    var p' := match f
      case FullName => p.(fullName := value)
      case JobTitle => p.(jobTitle := value)
      case Email => p.(email := value)
      case Phone => p.(phone := value)
      case Location => p.(location := value)
      case LinkedIn => p.(linkedin := value);
    d.(personalInfo := p')
  }

  /** Typing into the summary (or accepting the AI suggestion) replaces it and nothing else. */
  function SetSummary(d: ResumeData, value: string): (r: ResumeData)
    ensures r.summary == value
    ensures r.(summary := d.summary) == d
  {
    d.(summary := value)
  }

  // ---------------------------------------------------------------------------
  // Editing one field of one entry, on values

  /** The inputs of an experience card (the AI rewrite also writes `ExpDescription`). */
  datatype ExperienceField = ExpTitle | ExpCompany | ExpStartDate | ExpEndDate | ExpDescription

  /** The inputs of an education card; its description has no input. */
  datatype EducationField = EduDegree | EduSchool | EduStartDate | EduEndDate

  /** The inputs of a project card; its link and technologies have none. */
  datatype ProjectField = ProjName | ProjDescription

  function ExperienceFieldOf(e: ExperienceItem, f: ExperienceField): string
  {
    match f
    case ExpTitle => e.title
    case ExpCompany => e.company
    case ExpStartDate => e.startDate
    case ExpEndDate => e.endDate
    case ExpDescription => e.description
  }

  function EducationFieldOf(e: EducationItem, f: EducationField): string
  {
    match f
    case EduDegree => e.degree
    case EduSchool => e.school
    case EduStartDate => e.startDate
    case EduEndDate => e.endDate
  }

  function ProjectFieldOf(p: ProjectItem, f: ProjectField): string
  {
    match f
    case ProjName => p.name
    case ProjDescription => p.description
  }

  /** Entry `index` with field `f` set to `value`; every other entry and field is kept. */
  function SetExperienceField(xs: seq<ExperienceItem>, index: nat, f: ExperienceField, value: string)
    : (r: seq<ExperienceItem>)
    requires index < |xs|
    ensures |r| == |xs|
    ensures forall k :: 0 <= k < |xs| && k != index ==> r[k] == xs[k]
    ensures r[index].id == xs[index].id
    ensures forall g :: ExperienceFieldOf(r[index], g) == if g == f then value else ExperienceFieldOf(xs[index], g)
  {
    var e := xs[index];
    var e' := match f
      case ExpTitle => e.(title := value)
      case ExpCompany => e.(company := value)
      case ExpStartDate => e.(startDate := value)
      case ExpEndDate => e.(endDate := value)
      case ExpDescription => e.(description := value);
    xs[index := e']
  }

  /** Entry `index` with field `f` set to `value`; the description has no input and is kept. */
  function SetEducationField(xs: seq<EducationItem>, index: nat, f: EducationField, value: string)
    : (r: seq<EducationItem>)
    requires index < |xs|
    ensures |r| == |xs|
    ensures forall k :: 0 <= k < |xs| && k != index ==> r[k] == xs[k]
    ensures r[index].id == xs[index].id && r[index].description == xs[index].description
    ensures forall g :: EducationFieldOf(r[index], g) == if g == f then value else EducationFieldOf(xs[index], g)
  {
    var e := xs[index];
    var e' := match f
      case EduDegree => e.(degree := value)
      case EduSchool => e.(school := value)
      case EduStartDate => e.(startDate := value)
      case EduEndDate => e.(endDate := value);
    xs[index := e']
  }

  /** Project `index` with field `f` set to `value`; link and technologies are kept. */
  function SetProjectField(xs: seq<ProjectItem>, index: nat, f: ProjectField, value: string)
    : (r: seq<ProjectItem>)
    requires index < |xs|
    ensures |r| == |xs|
    ensures forall k :: 0 <= k < |xs| && k != index ==> r[k] == xs[k]
    ensures r[index].id == xs[index].id && r[index].link == xs[index].link
    ensures r[index].technologies == xs[index].technologies
    ensures forall g :: ProjectFieldOf(r[index], g) == if g == f then value else ProjectFieldOf(xs[index], g)
  {
    var p := xs[index];
    var p' := match f
      case ProjName => p.(name := value)
      case ProjDescription => p.(description := value);
    xs[index := p']
  }

  /** `onChange({ ...data, experience: newExp })`: only the experience list changes. */
  function WithExperienceField(d: ResumeData, index: nat, f: ExperienceField, value: string): (r: ResumeData)
    requires index < |d.experience|
    ensures r.experience == SetExperienceField(d.experience, index, f, value)
    ensures r.(experience := d.experience) == d
  {
    d.(experience := SetExperienceField(d.experience, index, f, value))
  }

  /** `onChange({ ...data, education: newEdu })`: only the education list changes. */
  function WithEducationField(d: ResumeData, index: nat, f: EducationField, value: string): (r: ResumeData)
    requires index < |d.education|
    ensures r.education == SetEducationField(d.education, index, f, value)
    ensures r.(education := d.education) == d
  {
    d.(education := SetEducationField(d.education, index, f, value))
  }

  /** `onChange({ ...data, projects: newPrj })`: only the project list changes. */
  function WithProjectField(d: ResumeData, index: nat, f: ProjectField, value: string): (r: ResumeData)
    requires index < |d.projects|
    ensures r.projects == SetProjectField(d.projects, index, f, value)
    ensures r.(projects := d.projects) == d
  {
    d.(projects := SetProjectField(d.projects, index, f, value))
  }

  // ---------------------------------------------------------------------------
  // Editing one field of one entry, on the entry objects

  /** An experience entry object of the list `data.experience`. */
  class ExperienceEntry {
    var id: string
    var title: string
    var company: string
    var startDate: string
    var endDate: string
    var description: string

    constructor (item: ExperienceItem)
      ensures Item() == item
    {
      id, title, company := item.id, item.title, item.company;
      startDate, endDate, description := item.startDate, item.endDate, item.description;
    }

    /** The value this object currently holds. */
    function Item(): ExperienceItem
      reads this
    {
      ExperienceItem(id, title, company, startDate, endDate, description)
    }
  }

  /** An education entry object of the list `data.education`. */
  class EducationEntry {
    var id: string
    var degree: string
    var school: string
    var startDate: string
    var endDate: string
    var description: string

    constructor (item: EducationItem)
      ensures Item() == item
    {
      id, degree, school := item.id, item.degree, item.school;
      startDate, endDate, description := item.startDate, item.endDate, item.description;
    }

    function Item(): EducationItem
      reads this
    {
      EducationItem(id, degree, school, startDate, endDate, description)
    }
  }

  /** A project object of the list `data.projects`. */
  class ProjectEntry {
    var id: string
    var name: string
    var link: Option<string>
    var description: string
    var technologies: seq<string>

    constructor (item: ProjectItem)
      ensures Item() == item
    {
      id, name, link := item.id, item.name, item.link;
      description, technologies := item.description, item.technologies;
    }

    function Item(): ProjectItem
      reads this
    {
      ProjectItem(id, name, link, description, technologies)
    }
  }

  function ExperienceItems(entries: seq<ExperienceEntry>): (r: seq<ExperienceItem>)
    reads entries
    ensures |r| == |entries| && forall k :: 0 <= k < |r| ==> r[k] == entries[k].Item()
  {
    seq(|entries|, k reads entries requires 0 <= k < |entries| => entries[k].Item())
  }

  function EducationItems(entries: seq<EducationEntry>): (r: seq<EducationItem>)
    reads entries
    ensures |r| == |entries| && forall k :: 0 <= k < |r| ==> r[k] == entries[k].Item()
  {
    seq(|entries|, k reads entries requires 0 <= k < |entries| => entries[k].Item())
  }

  function ProjectItems(entries: seq<ProjectEntry>): (r: seq<ProjectItem>)
    reads entries
    ensures |r| == |entries| && forall k :: 0 <= k < |r| ==> r[k] == entries[k].Item()
  {
    seq(|entries|, k reads entries requires 0 <= k < |entries| => entries[k].Item())
  }

  /**
   * An experience input's `onChange` (and the AI rewrite's setter):
   * `const copy = [...data.experience]; copy[index].f = value`.
   * The copy holds the very same objects, and the entry written to is also
   * the entry of the previous document: its list reads the new value too.
   */
  method EditExperience(entries: seq<ExperienceEntry>, index: nat, f: ExperienceField, value: string)
    returns (copy: seq<ExperienceEntry>)
    requires index < |entries|
    modifies entries[index]
    ensures copy == entries
    ensures forall k :: 0 <= k < |entries| ==>
      entries[k].Item() ==
        if entries[k] == entries[index] then SetExperienceField([old(entries[index].Item())], 0, f, value)[0]
        else old(entries[k].Item())
    ensures NoDuplicates(entries) ==>
      ExperienceItems(copy) == SetExperienceField(old(ExperienceItems(entries)), index, f, value)
  {
    copy := entries;
    var e := copy[index];
    match f
    case ExpTitle => e.title := value;
    case ExpCompany => e.company := value;
    case ExpStartDate => e.startDate := value;
    case ExpEndDate => e.endDate := value;
    case ExpDescription => e.description := value;
  }

  /**
   * The shared entry made visible: after one title edit, the list of the
   * previous document reads exactly what the list of the next document reads,
   * although it read the unedited entry before.
   */
  method PreviousDocumentSeesEdit(item: ExperienceItem, value: string)
    returns (previousBefore: seq<ExperienceItem>, previousAfter: seq<ExperienceItem>, next: seq<ExperienceItem>)
    ensures previousBefore == [item]
    ensures next == [item.(title := value)]
    ensures previousAfter == next
  {
    var e := new ExperienceEntry(item);
    var previous := [e];
    previousBefore := ExperienceItems(previous);
    var copy := EditExperience(previous, 0, ExpTitle, value);
    next := ExperienceItems(copy);
    previousAfter := ExperienceItems(previous);
  }

  /** An education input's `onChange`: `copy[index].f = value` on a shallow copy. */
  method EditEducation(entries: seq<EducationEntry>, index: nat, f: EducationField, value: string)
    returns (copy: seq<EducationEntry>)
    requires index < |entries|
    modifies entries[index]
    ensures copy == entries
    ensures forall k :: 0 <= k < |entries| ==>
      entries[k].Item() ==
        if entries[k] == entries[index] then SetEducationField([old(entries[index].Item())], 0, f, value)[0]
        else old(entries[k].Item())
    ensures NoDuplicates(entries) ==>
      EducationItems(copy) == SetEducationField(old(EducationItems(entries)), index, f, value)
  {
    copy := entries;
    var e := copy[index];
    match f
    case EduDegree => e.degree := value;
    case EduSchool => e.school := value;
    case EduStartDate => e.startDate := value;
    case EduEndDate => e.endDate := value;
  }

  /** A project input's `onChange` (and the AI rewrite's setter): `copy[index].f = value` on a shallow copy. */
  method EditProject(entries: seq<ProjectEntry>, index: nat, f: ProjectField, value: string)
    returns (copy: seq<ProjectEntry>)
    requires index < |entries|
    modifies entries[index]
    ensures copy == entries
    ensures forall k :: 0 <= k < |entries| ==>
      entries[k].Item() ==
        if entries[k] == entries[index] then SetProjectField([old(entries[index].Item())], 0, f, value)[0]
        else old(entries[k].Item())
    ensures NoDuplicates(entries) ==>
      ProjectItems(copy) == SetProjectField(old(ProjectItems(entries)), index, f, value)
  {
    copy := entries;
    var p := copy[index];
    match f
    case ProjName => p.name := value;
    case ProjDescription => p.description := value;
  }
}
