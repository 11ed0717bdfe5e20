/**
 * The résumé document edited by the builder and rendered by the templates.
 * A JavaScript field that may be undefined, null or the empty string is a plain
 * `string` here whose empty value stands for all three: the editor and the
 * templates only ever test such fields for truthiness.
 */
module Document {
  import opened Wrappers

  /**
   * A date field as the month pickers leave it and as dayjs reads it: absent
   * (null, undefined or empty), present but not a date dayjs can parse, or an
   * instant in milliseconds.
   */
  datatype DateField = NoDate | Unparseable | At(instant: int)

  datatype PersonalInfo = PersonalInfo(
    name: string,
    email: string,
    phone: string,
    location: string,
    profession: string,
    linkedin: string,
    website: string,
    imageUrl: string)

  datatype Experience = Experience(
    company: string,
    title: string,
    startDate: DateField,
    endDate: DateField,
    currentlyWorking: bool,
    description: string)

  datatype Education = Education(
    institutionName: string,
    degree: string,
    fieldOfStudy: string,
    date: DateField,
    gpa: string)

  /** A project; `projectType` is the source's `type` field. */
  datatype Project = Project(name: string, projectType: string, description: string)

  datatype Skill = Skill(name: string)

  datatype Resume = Resume(
    personalInfo: PersonalInfo,
    summary: string,
    experience: seq<Experience>,
    education: seq<Education>,
    projects: seq<Project>,
    skills: seq<Skill>)

  const EmptyPersonalInfo := PersonalInfo("", "", "", "", "", "", "", "")

  /** The builder's `initialData`: every text empty and every list empty. */
  function InitialData(): (d: Resume)
    ensures var p := d.personalInfo;
      p.name == "" && p.email == "" && p.phone == "" && p.location == ""
      && p.profession == "" && p.linkedin == "" && p.website == "" && p.imageUrl == ""
    ensures d.summary == "" && d.experience == [] && d.education == [] && d.projects == [] && d.skills == []
  {
    Resume(EmptyPersonalInfo, "", [], [], [], [])
  }

  /** What the "Add Experience" button inserts. */
  const NewExperience := Experience("", "", NoDate, NoDate, false, "")

  /** What the "Add Education" button inserts. */
  const NewEducation := Education("", "", "", NoDate, "")

  /** What the "Add Project" button inserts. */
  const NewProject := Project("", "", "")

  /**
   * The templates' destructuring of `resumeData || {}` with defaults: a missing
   * document reads as one whose fields are all empty.
   */
  function OrEmpty(data: Option<Resume>): Resume {
    data.GetOr(InitialData())
  }

  /** JavaScript's `text || fallback` on a string. */
  function OrElse(text: string, fallback: string): (r: string)
    ensures text != "" ==> r == text
    ensures text == "" ==> r == fallback
    ensures r != "" <== fallback != ""
  {
    if text != "" then text else fallback
  }
}
