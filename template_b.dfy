/**
 * The modern template (`TemplateB`): an uncoloured name over one contact line
 * holding the website with a GitHub or globe icon; experience (latest first) and
 * projects as single paragraphs with fallback text; education latest first; skills
 * as tags. The accent colours the company, project type and institution subtitles.
 */
module TemplateB {
  import opened Wrappers
  import opened Document
  import opened Strings
  import opened View
  import opened ChronoSort

  function SummarySection(d: Resume): Section {
    Section(SummaryKind, Some("Professional Summary"), Prose(d.summary))
  }

  function ExperienceSection(d: Resume, accent: string, now: int): Section {
    Section(ExperienceKind, Some("Experience"), Entries(MapExperience(SortExperience(d.experience, now), Some(accent), false)))
  }

  function ProjectsSection(d: Resume, accent: string): Section {
    Section(ProjectsKind, Some("Projects"), Entries(MapProjects(d.projects, Some(accent), false)))
  }

  function EducationSection(d: Resume, accent: string): Section {
    Section(EducationKind, Some("Education"), Entries(MapEducation(SortEducation(d.education), Some(accent))))
  }

  /** One tag per named skill, no separators. */
  function SkillsSection(d: Resume): Section {
    Section(SkillsKind, Some("Skills"), Skills(SkillItems(d.skills, false)))
  }

  function MainSections(d: Resume, accent: string, now: int): seq<Section> {
    When(d.summary != "", SummarySection(d))
      + When(|d.experience| > 0, ExperienceSection(d, accent, now))
      + When(|d.projects| > 0, ProjectsSection(d, accent))
      + When(|d.education| > 0, EducationSection(d, accent))
      + When(|d.skills| > 0, SkillsSection(d))
  }

  function Render(data: Option<Resume>, accent: string, now: int): (v: View)
    ensures v.layout == Modern && v.accentVar == accent && v.sidebar == []
  {
    var d := OrEmpty(data);
    var p := d.personalInfo;
    View(Modern, accent,
      Header(OrElse(p.name, "Your Name"), None, None, None, ContactsWithWebsite(p), None, None),
      [], MainSections(d, accent, now))
  }

  lemma Gating(d: Resume, accent: string, now: int, k: SectionKind)
    ensures HasSection(MainSections(d, accent, now), k) <==>
      (d.summary != "" && k == SummaryKind) || (|d.experience| > 0 && k == ExperienceKind)
      || (|d.projects| > 0 && k == ProjectsKind) || (|d.education| > 0 && k == EducationKind)
      || (|d.skills| > 0 && k == SkillsKind)
  {
    HasSectionOfFive(d.summary != "", SummarySection(d), |d.experience| > 0, ExperienceSection(d, accent, now),
      |d.projects| > 0, ProjectsSection(d, accent), |d.education| > 0, EducationSection(d, accent),
      |d.skills| > 0, SkillsSection(d), k);
  }

  /** Each section appears exactly when its part of the document is non-empty. */
  lemma SectionsWhenNonEmpty(d: Resume, accent: string, now: int)
    ensures var m := Render(Some(d), accent, now).main;
      (HasSection(m, SummaryKind) <==> d.summary != "")
      && (HasSection(m, ExperienceKind) <==> |d.experience| > 0)
      && (HasSection(m, ProjectsKind) <==> |d.projects| > 0)
      && (HasSection(m, EducationKind) <==> |d.education| > 0)
      && (HasSection(m, SkillsKind) <==> |d.skills| > 0)
      && !HasSection(m, ContactKind)
  {
    assert Render(Some(d), accent, now).main == MainSections(d, accent, now);
    ShownOfFive(d.summary != "", SummarySection(d), |d.experience| > 0, ExperienceSection(d, accent, now),
      |d.projects| > 0, ProjectsSection(d, accent), |d.education| > 0, EducationSection(d, accent), |d.skills| > 0, SkillsSection(d));
  }

  /** A GitHub address gets the GitHub item and any other website the globe item, never both. */
  lemma GithubOrGlobe(data: Option<Resume>, accent: string, now: int)
    ensures var w := OrEmpty(data).personalInfo.website; var h := Render(data, accent, now).header;
      (HasIcon(h.contacts, GitHub) <==> IsGithub(w))
      && (HasIcon(h.contacts, Globe) <==> w != "" && !IsGithub(w))
      && !(HasIcon(h.contacts, GitHub) && HasIcon(h.contacts, Globe))
      && h.githubSlot == None
  {
    WebsiteIconExclusive(OrEmpty(data).personalInfo);
  }

  /**
   * The accent colours every entry subtitle (company, project type, institution)
   * and neither the name nor a divider.
   */
  lemma AccentOnSubtitles(data: Option<Resume>, accent: string, now: int)
    ensures var v := Render(data, accent, now);
      SubtitlesColored(v.main, Some(accent)) && v.header.nameColor == None && v.header.dividerColor == None
  {
    MainColored(OrEmpty(data), accent, now);
  }

  lemma MainColored(d: Resume, accent: string, now: int)
    ensures SubtitlesColored(MainSections(d, accent, now), Some(accent))
  {
    NoEntriesColored(d.summary != "", SummarySection(d), Some(accent));
    ExperienceColored(d, accent, now);
    ProjectsColored(d, accent);
    EducationColored(d, accent);
    NoEntriesColored(|d.skills| > 0, SkillsSection(d), Some(accent));
    SubtitlesColoredOfFive(d.summary != "", SummarySection(d), |d.experience| > 0, ExperienceSection(d, accent, now),
      |d.projects| > 0, ProjectsSection(d, accent), |d.education| > 0, EducationSection(d, accent),
      |d.skills| > 0, SkillsSection(d), Some(accent));
  }

  lemma ExperienceColored(d: Resume, accent: string, now: int)
    ensures SubtitlesColored(When(|d.experience| > 0, ExperienceSection(d, accent, now)), Some(accent))
  {
    MapColors(SortExperience(d.experience, now), [], [], Some(accent), false);
    EntriesColored(ExperienceKind, Some("Experience"), MapExperience(SortExperience(d.experience, now), Some(accent), false), |d.experience| > 0, Some(accent));
  }

  lemma ProjectsColored(d: Resume, accent: string)
    ensures SubtitlesColored(When(|d.projects| > 0, ProjectsSection(d, accent)), Some(accent))
  {
    MapColors([], d.projects, [], Some(accent), false);
    EntriesColored(ProjectsKind, Some("Projects"), MapProjects(d.projects, Some(accent), false), |d.projects| > 0, Some(accent));
  }

  lemma EducationColored(d: Resume, accent: string)
    ensures SubtitlesColored(When(|d.education| > 0, EducationSection(d, accent)), Some(accent))
  {
    MapColors([], [], SortEducation(d.education), Some(accent), false);
    EntriesColored(EducationKind, Some("Education"), MapEducation(SortEducation(d.education), Some(accent)), |d.education| > 0, Some(accent));
  }

  /**
   * Descriptions are single unsplit paragraphs: a job's is its text or
   * "Description...", a project's its text or "Project description...".
   */
  lemma ParagraphDescriptions(d: Resume, accent: string, now: int)
    ensures forall e :: e in MapExperience(SortExperience(d.experience, now), Some(accent), false) ==>
      e.body.Paragraph? && e.body.text != ""
    ensures forall i :: 0 <= i < |d.projects| ==>
      MapProjects(d.projects, Some(accent), false)[i].body == Paragraph(OrElse(d.projects[i].description, "Project description..."))
    ensures forall i :: 0 <= i < |SortExperience(d.experience, now)| ==>
      MapExperience(SortExperience(d.experience, now), Some(accent), false)[i].body
        == Paragraph(OrElse(SortExperience(d.experience, now)[i].description, "Description..."))
  {
  }

  /** Skills show as one tag per named skill, in the order entered, without separators. */
  lemma SkillTags(d: Resume)
    ensures ItemNames(SkillItems(d.skills, false)) == NamedSkills(d.skills)
    ensures forall j :: 0 <= j < |SkillItems(d.skills, false)| ==> !SkillItems(d.skills, false)[j].separator
  {
    SkillItemsSpec(d.skills, false);
  }

  /** The page depends on experience and education only through their display order. */
  lemma SameOrderSameView(d: Resume, exp: seq<Experience>, edu: seq<Education>, accent: string, now: int)
    requires SortExperience(exp, now) == SortExperience(d.experience, now)
    requires SortEducation(edu) == SortEducation(d.education)
    ensures Render(Some(d.(experience := exp, education := edu)), accent, now) == Render(Some(d), accent, now)
  {
    SameOrderSameMain(d, exp, edu, accent, now);
  }

  lemma SameOrderSameMain(d: Resume, exp: seq<Experience>, edu: seq<Education>, accent: string, now: int)
    requires SortExperience(exp, now) == SortExperience(d.experience, now)
    requires SortEducation(edu) == SortEducation(d.education)
    ensures var d2 := d.(experience := exp, education := edu); MainSections(d2, accent, now) == MainSections(d, accent, now)
  {
    assert |exp| == |SortExperience(exp, now)| && |edu| == |SortEducation(edu)|;
  }
}
