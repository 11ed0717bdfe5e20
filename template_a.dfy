/**
 * The classic template (`TemplateA`): a coloured name over a contact line, a
 * separate GitHub line and an accent-coloured divider, then summary, experience
 * (latest first, one bullet per description line), projects, education (latest
 * first) and a " • "-separated skills line, each section only when it has content.
 */
module TemplateA {
  import opened Wrappers
  import opened Document
  import opened Strings
  import opened View
  import opened ChronoSort

  /** The contact line: the website joins it only when it is not a GitHub address. */
  function ContactLine(p: PersonalInfo): seq<Contact> {
    BasicContacts(p) + When(p.website != "" && !IsGithub(p.website), Contact(Globe, p.website))
  }

  /** `getGithubUrl(website)`: the website when it is a GitHub address, else nothing. */
  function GithubUrl(website: string): (r: Option<string>)
    ensures r.Some? <==> IsGithub(website)
    ensures r.Some? ==> r.value == website
  {
    if website != "" && IsGithub(website) then Some(website) else None
  }

  function SummarySection(d: Resume): Section {
    Section(SummaryKind, Some("Professional Summary"), Prose(d.summary))
  }

  function ExperienceSection(d: Resume, now: int): Section {
    Section(ExperienceKind, Some("Professional Experience"), Entries(MapExperience(SortExperience(d.experience, now), None, true)))
  }

  function ProjectsSection(d: Resume): Section {
    Section(ProjectsKind, Some("Projects"), Entries(MapProjects(d.projects, None, false)))
  }

  function EducationSection(d: Resume): Section {
    Section(EducationKind, Some("Education"), Entries(MapEducation(SortEducation(d.education), None)))
  }

  function SkillsSection(d: Resume): Section {
    Section(SkillsKind, Some("Core Skills"), Skills(SkillItems(d.skills, true)))
  }

  /** The sections below the header, in their order on the page. */
  function MainSections(d: Resume, now: int): seq<Section> {
    When(d.summary != "", SummarySection(d))
      + When(|d.experience| > 0, ExperienceSection(d, now))
      + When(|d.projects| > 0, ProjectsSection(d))
      + When(|d.education| > 0, EducationSection(d))
      + When(|d.skills| > 0, SkillsSection(d))
  }

  function Render(data: Option<Resume>, accent: string, now: int): (v: View)
    ensures v.layout == Classic && v.accentVar == accent && v.sidebar == []
  {
    var d := OrEmpty(data);
    var p := d.personalInfo;
    var github := GithubUrl(p.website);
    View(Classic, accent,
      Header(OrElse(p.name, "Your Name"), Some(accent), None, None, ContactLine(p),
        if github.Some? then Some(Contact(GitHub, github.value)) else None, Some(accent)),
      [], MainSections(d, now))
  }

  /** A missing document renders as the empty one. */
  lemma MissingIsEmpty(accent: string, now: int)
    ensures Render(None, accent, now) == Render(Some(InitialData()), accent, now)
  {
  }

  /** Each section appears exactly when its part of the document is non-empty. */
  lemma SectionsWhenNonEmpty(d: Resume, accent: string, now: int)
    ensures var m := Render(Some(d), accent, now).main;
      (HasSection(m, SummaryKind) <==> d.summary != "")
      && (HasSection(m, ExperienceKind) <==> |d.experience| > 0)
      && (HasSection(m, ProjectsKind) <==> |d.projects| > 0)
      && (HasSection(m, EducationKind) <==> |d.education| > 0)
      && (HasSection(m, SkillsKind) <==> |d.skills| > 0)
      && !HasSection(m, ContactKind)
  {
    assert Render(Some(d), accent, now).main == MainSections(d, now);
    ShownOfFive(d.summary != "", SummarySection(d), |d.experience| > 0, ExperienceSection(d, now),
      |d.projects| > 0, ProjectsSection(d), |d.education| > 0, EducationSection(d), |d.skills| > 0, SkillsSection(d));
  }

  lemma Gating(d: Resume, now: int, k: SectionKind)
    ensures HasSection(MainSections(d, now), k) <==>
      (d.summary != "" && k == SummaryKind) || (|d.experience| > 0 && k == ExperienceKind)
      || (|d.projects| > 0 && k == ProjectsKind) || (|d.education| > 0 && k == EducationKind)
      || (|d.skills| > 0 && k == SkillsKind)
  {
    HasSectionOfFive(d.summary != "", SummarySection(d), |d.experience| > 0, ExperienceSection(d, now),
      |d.projects| > 0, ProjectsSection(d), |d.education| > 0, EducationSection(d), |d.skills| > 0, SkillsSection(d), k);
  }

  /**
   * A GitHub address appears only on the separate GitHub line and any other
   * website only on the contact line, never both and never with the other icon.
   */
  lemma GithubOnlyInSlot(data: Option<Resume>, accent: string, now: int)
    ensures var w := OrEmpty(data).personalInfo.website; var h := Render(data, accent, now).header;
      !HasIcon(h.contacts, GitHub)
      && (HasIcon(h.contacts, Globe) <==> w != "" && !IsGithub(w))
      && (h.githubSlot.Some? <==> IsGithub(w))
      && (h.githubSlot.Some? ==> h.githubSlot.value == Contact(GitHub, w))
      && (Contact(Globe, w) in h.contacts <==> w != "" && !IsGithub(w))
  {
  }

  /** The accent colours the name and the divider, and sets the CSS variable. */
  lemma AccentOnNameAndDivider(data: Option<Resume>, accent: string, now: int)
    ensures var h := Render(data, accent, now).header;
      h.nameColor == Some(accent) && h.dividerColor == Some(accent)
      && h.name != "" && (OrEmpty(data).personalInfo.name != "" ==> h.name == OrEmpty(data).personalInfo.name)
  {
  }

  /**
   * The experience section lists every job once, latest effective end first,
   * each with its bulleted description.
   */
  lemma ExperienceLatestFirst(d: Resume, accent: string, now: int)
    requires |d.experience| > 0
    ensures var es := MapExperience(SortExperience(d.experience, now), None, true);
      Section(ExperienceKind, Some("Professional Experience"), Entries(es)) in Render(Some(d), accent, now).main
      && |es| == |d.experience|
      && forall i :: 0 <= i < |es| ==> es[i].body == Bullets(NonEmptyLines(SortExperience(d.experience, now)[i].description))
    ensures SortedBy(SortExperience(d.experience, now), e => ExperienceKey(e, now))
    ensures multiset(SortExperience(d.experience, now)) == multiset(d.experience)
  {
    SortExperienceSpec(d.experience, now);
    assert |SortExperience(d.experience, now)| == |multiset(SortExperience(d.experience, now))| == |d.experience|;
  }

  /** Experience and schools with distinct dates render the same whatever order they were entered in. */
  lemma EntryOrderIrrelevant(d: Resume, exp: seq<Experience>, edu: seq<Education>, accent: string, now: int)
    requires multiset(exp) == multiset(d.experience)
    requires forall i, j :: 0 <= i < j < |d.experience| ==> ExperienceKey(d.experience[i], now) != ExperienceKey(d.experience[j], now)
    requires multiset(edu) == multiset(d.education)
    requires forall i, j :: 0 <= i < j < |d.education| ==> InstantOf(d.education[i].date) != InstantOf(d.education[j].date)
    ensures Render(Some(d.(experience := exp, education := edu)), accent, now) == Render(Some(d), accent, now)
  {
    ExperienceOrderIgnoresInput(d.experience, exp, now);
    EducationOrderIgnoresInput(d.education, edu);
    SameOrderSameView(d, exp, edu, accent, now);
  }

  /** With an empty document only the header shows, with every placeholder-free part empty. */
  lemma EmptyDocument(accent: string, now: int)
    ensures Render(None, accent, now).main == []
    ensures Render(None, accent, now).header == Header("Your Name", Some(accent), None, None, [], None, Some(accent))
  {
  }

  /** The page depends on experience and education only through their display order. */
  lemma SameOrderSameView(d: Resume, exp: seq<Experience>, edu: seq<Education>, accent: string, now: int)
    requires SortExperience(exp, now) == SortExperience(d.experience, now)
    requires SortEducation(edu) == SortEducation(d.education)
    ensures Render(Some(d.(experience := exp, education := edu)), accent, now) == Render(Some(d), accent, now)
  {
    SameOrderSameMain(d, exp, edu, now);
  }

  lemma SameOrderSameMain(d: Resume, exp: seq<Experience>, edu: seq<Education>, now: int)
    requires SortExperience(exp, now) == SortExperience(d.experience, now)
    requires SortEducation(edu) == SortEducation(d.education)
    ensures var d2 := d.(experience := exp, education := edu); MainSections(d2, now) == MainSections(d, now)
  {
    assert |exp| == |SortExperience(exp, now)| && |edu| == |SortEducation(edu)|;
  }
}
