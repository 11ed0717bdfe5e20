/**
 * The minimal template (`TemplateD`): an uncoloured name over one contact line,
 * an untitled summary, experience in the order entered (its comparator is an empty
 * stub), projects, education latest first and a " • "-separated skills line.
 */
module TemplateD {
  import opened Wrappers
  import opened Document
  import opened Strings
  import opened View
  import opened ChronoSort

  /** The summary has no heading in this template. */
  function SummarySection(d: Resume): Section {
    Section(SummaryKind, None, Prose(d.summary))
  }

  function ExperienceSection(d: Resume): Section {
    Section(ExperienceKind, Some("Experience"), Entries(MapExperience(StubSortExperience(d.experience), None, false)))
  }

  function ProjectsSection(d: Resume): Section {
    Section(ProjectsKind, Some("Projects"), Entries(MapProjects(d.projects, None, false)))
  }

  function EducationSection(d: Resume): Section {
    Section(EducationKind, Some("Education"), Entries(MapEducation(SortEducation(d.education), None)))
  }

  function SkillsSection(d: Resume): Section {
    Section(SkillsKind, Some("Skills"), Skills(SkillItems(d.skills, true)))
  }

  function MainSections(d: Resume): seq<Section> {
    When(d.summary != "", SummarySection(d))
      + When(|d.experience| > 0, ExperienceSection(d))
      + When(|d.projects| > 0, ProjectsSection(d))
      + When(|d.education| > 0, EducationSection(d))
      + When(|d.skills| > 0, SkillsSection(d))
  }

  /** `now` does not appear: the only comparator that reads the clock is the stub's, which is empty. */
  function Render(data: Option<Resume>, accent: string): (v: View)
    ensures v.layout == Minimal && v.accentVar == accent && v.sidebar == []
  {
    var d := OrEmpty(data);
    var p := d.personalInfo;
    View(Minimal, accent,
      Header(OrElse(p.name, "Your Name"), None, None, None, ContactsWithWebsite(p), None, None),
      [], MainSections(d))
  }

  lemma Gating(d: Resume, k: SectionKind)
    ensures HasSection(MainSections(d), k) <==>
      (d.summary != "" && k == SummaryKind) || (|d.experience| > 0 && k == ExperienceKind)
      || (|d.projects| > 0 && k == ProjectsKind) || (|d.education| > 0 && k == EducationKind)
      || (|d.skills| > 0 && k == SkillsKind)
  {
    HasSectionOfFive(d.summary != "", SummarySection(d), |d.experience| > 0, ExperienceSection(d),
      |d.projects| > 0, ProjectsSection(d), |d.education| > 0, EducationSection(d), |d.skills| > 0, SkillsSection(d), k);
  }

  /** Each section appears exactly when its part of the document is non-empty. */
  lemma SectionsWhenNonEmpty(d: Resume, accent: string)
    ensures var m := Render(Some(d), accent).main;
      (HasSection(m, SummaryKind) <==> d.summary != "")
      && (HasSection(m, ExperienceKind) <==> |d.experience| > 0)
      && (HasSection(m, ProjectsKind) <==> |d.projects| > 0)
      && (HasSection(m, EducationKind) <==> |d.education| > 0)
      && (HasSection(m, SkillsKind) <==> |d.skills| > 0)
      && !HasSection(m, ContactKind)
  {
    assert Render(Some(d), accent).main == MainSections(d);
    ShownOfFive(d.summary != "", SummarySection(d), |d.experience| > 0, ExperienceSection(d),
      |d.projects| > 0, ProjectsSection(d), |d.education| > 0, EducationSection(d), |d.skills| > 0, SkillsSection(d));
  }

  /** The summary, when shown, is the first section and carries no heading. */
  lemma UntitledSummary(d: Resume, accent: string)
    requires d.summary != ""
    ensures var m := Render(Some(d), accent).main;
      |m| > 0 && m[0] == Section(SummaryKind, None, Prose(d.summary))
  {
  }

  /**
   * Jobs are listed exactly in the order entered, the i-th entry showing the i-th
   * job, because the empty comparator makes every pair tie under a stable sort.
   */
  lemma ExperienceInInsertionOrder(d: Resume, accent: string)
    requires |d.experience| > 0
    ensures var es := MapExperience(d.experience, None, false);
      Section(ExperienceKind, Some("Experience"), Entries(es)) in Render(Some(d), accent).main
      && forall i :: 0 <= i < |d.experience| ==> es[i].title == OrElse(d.experience[i].title, "Job Title")
  {
    StubSortKeepsOrder(d.experience);
    assert ExperienceSection(d) in When(|d.experience| > 0, ExperienceSection(d));
  }

  /**
   * Unlike the other templates, swapping two jobs changes the page: with two jobs
   * of different titles, entering them in the other order shows them in the other order.
   */
  lemma OrderEnteredMatters(d: Resume, a: Experience, b: Experience, accent: string)
    requires a.title != "" && b.title != "" && a.title != b.title
    ensures Render(Some(d.(experience := [a, b])), accent) != Render(Some(d.(experience := [b, a])), accent)
  {
    var d1 := d.(experience := [a, b]);
    var d2 := d.(experience := [b, a]);
    ExperienceSectionAt(d1);
    ExperienceSectionAt(d2);
    FirstTitle(d1);
    FirstTitle(d2);
    assert Render(Some(d1), accent).main == MainSections(d1);
    assert Render(Some(d2), accent).main == MainSections(d2);
  }

  /** The experience section follows the summary, when there is one. */
  lemma ExperienceSectionAt(d: Resume)
    requires |d.experience| > 0
    ensures var at := if d.summary != "" then 1 else 0;
      at < |MainSections(d)| && MainSections(d)[at] == ExperienceSection(d)
  {
  }

  /** The experience section opens with the job entered first. */
  lemma FirstTitle(d: Resume)
    requires |d.experience| > 0 && d.experience[0].title != ""
    ensures var s := ExperienceSection(d);
      s.content.Entries? && |s.content.entries| > 0 && s.content.entries[0].title == d.experience[0].title
  {
    StubSortKeepsOrder(d.experience);
  }

  /** The website shows once, with the GitHub icon for a GitHub address and the globe otherwise. */
  lemma GithubOrGlobe(data: Option<Resume>, accent: string)
    ensures var w := OrEmpty(data).personalInfo.website; var h := Render(data, accent).header;
      (HasIcon(h.contacts, GitHub) <==> IsGithub(w))
      && (HasIcon(h.contacts, Globe) <==> w != "" && !IsGithub(w))
      && !(HasIcon(h.contacts, GitHub) && HasIcon(h.contacts, Globe))
  {
    WebsiteIconExclusive(OrEmpty(data).personalInfo);
  }

  /** Every named skill but the last shown carries the " • " separator, and the last carries none when it is the final skill. */
  lemma SkillSeparators(d: Resume)
    ensures ItemNames(SkillItems(d.skills, true)) == NamedSkills(d.skills)
    ensures forall j :: 0 <= j < |SkillItems(d.skills, true)| - 1 ==> SkillItems(d.skills, true)[j].separator
    ensures |SkillItems(d.skills, true)| > 0 && d.skills[|d.skills| - 1].name != "" ==>
      !SkillItems(d.skills, true)[|SkillItems(d.skills, true)| - 1].separator
  {
    SkillItemsSpec(d.skills, true);
  }

  /** The page depends on education only through its display order. */
  lemma SameEducationOrderSameView(d: Resume, edu: seq<Education>, accent: string)
    requires SortEducation(edu) == SortEducation(d.education)
    ensures Render(Some(d.(education := edu)), accent) == Render(Some(d), accent)
  {
    assert |edu| == |SortEducation(edu)|;
    assert MainSections(d.(education := edu)) == MainSections(d);
  }
}
