/**
 * The minimal-image template (`TemplateC`): a sidebar with the avatar, an
 * always-present CONTACT block (phone, email, location), education latest first
 * and a skills list; a main column with the name, the upper-cased profession,
 * summary, experience latest first and projects, both descriptions bulleted.
 */
module TemplateC {
  import opened Wrappers
  import opened Document
  import opened Strings
  import opened View
  import opened ChronoSort

  /** The position of each item in the sidebar's CONTACT block: phone, email, location. */
  function SidebarRank(icon: Icon): nat {
    match icon
    case Phone => 0
    case Mail => 1
    case Location => 2
    case _ => 3
  }

  function SidebarCandidates(p: PersonalInfo): seq<Contact> {
    [Contact(Phone, p.phone), Contact(Mail, p.email), Contact(Location, p.location)]
  }

  lemma SidebarCandidatesFacts(p: PersonalInfo)
    ensures var cs := SidebarCandidates(p);
      OwnFields(p, cs) && (forall c :: c in cs ==> c.icon in {Phone, Mail, Location})
      && Ranked(cs, SidebarRank)
  {
  }

  /**
   * The sidebar contact items, phone, email and location in that order, each with its
   * own field exactly when the field is set; LinkedIn and website are not shown.
   */
  function ContactItems(p: PersonalInfo): (r: seq<Contact>)
    ensures forall c :: c in r ==> c.icon in {Phone, Mail, Location} && c.text != "" && c.text == FieldText(p, c.icon)
    ensures HasIcon(r, Phone) <==> p.phone != ""
    ensures HasIcon(r, Mail) <==> p.email != ""
    ensures HasIcon(r, Location) <==> p.location != ""
    ensures forall i, j :: 0 <= i < j < |r| ==> SidebarRank(r[i].icon) < SidebarRank(r[j].icon)
  {
    var cs := SidebarCandidates(p);
    SidebarCandidatesFacts(p);
    PresentRanked(cs, SidebarRank);
    PresentFields(p, cs, Phone);
    PresentFields(p, cs, Mail);
    PresentFields(p, cs, Location);
    Present(cs)
  }

  /** `imageUrl ? <Avatar src={imageUrl}/> : <Avatar icon={<UserOutlined/>}/>`. */
  function AvatarOf(p: PersonalInfo): (a: Avatar)
    ensures a.Photo? <==> p.imageUrl != ""
    ensures a.Photo? ==> a.url == p.imageUrl
  {
    if p.imageUrl != "" then Photo(p.imageUrl) else PlaceholderIcon
  }

  /** A sidebar school: degree, " - " and the field only when given; no placeholder, no GPA. */
  function SidebarEducationEntry(e: Education): (r: Entry)
    ensures r.gpa == None && r.subtitle == Some(e.institutionName) && r.subtitleColor == None
    ensures r.date == Some([DateFragment(e.date)]) && r.body == NoBody
    ensures StartsWith(r.title, e.degree)
    ensures e.fieldOfStudy == "" ==> r.title == e.degree
    ensures e.fieldOfStudy != "" ==> r.title == e.degree + " - " + e.fieldOfStudy
  {
    Entry(e.degree + (if e.fieldOfStudy != "" then " - " + e.fieldOfStudy else ""), Some(e.institutionName), None,
      Some([DateFragment(e.date)]), None, NoBody)
  }

  function MapSidebarEducation(edu: seq<Education>): (r: seq<Entry>)
    ensures |r| == |edu|
    ensures forall i :: 0 <= i < |edu| ==> r[i] == SidebarEducationEntry(edu[i])
  {
    if edu == [] then [] else [SidebarEducationEntry(edu[0])] + MapSidebarEducation(edu[1..])
  }

  function ContactSection(p: PersonalInfo): Section {
    Section(ContactKind, Some("CONTACT"), Contacts(ContactItems(p)))
  }

  function EducationSection(d: Resume): Section {
    Section(EducationKind, Some("EDUCATION"), Entries(MapSidebarEducation(SortEducation(d.education))))
  }

  function SkillsSection(d: Resume): Section {
    Section(SkillsKind, Some("SKILLS"), Skills(SkillItems(d.skills, false)))
  }

  function SummarySection(d: Resume): Section {
    Section(SummaryKind, Some("SUMMARY"), Prose(d.summary))
  }

  function ExperienceSection(d: Resume, now: int): Section {
    Section(ExperienceKind, Some("EXPERIENCE"), Entries(MapExperience(SortExperience(d.experience, now), None, true)))
  }

  function ProjectsSection(d: Resume): Section {
    Section(ProjectsKind, Some("PROJECTS"), Entries(MapProjects(d.projects, None, true)))
  }

  function Sidebar(d: Resume): seq<Section> {
    [ContactSection(d.personalInfo)]
      + When(|d.education| > 0, EducationSection(d))
      + When(|d.skills| > 0, SkillsSection(d))
  }

  function MainSections(d: Resume, now: int): seq<Section> {
    When(d.summary != "", SummarySection(d))
      + When(|d.experience| > 0, ExperienceSection(d, now))
      + When(|d.projects| > 0, ProjectsSection(d))
  }

  function Render(data: Option<Resume>, accent: string, now: int): (v: View)
    ensures v.layout == MinimalImage && v.accentVar == accent
  {
    var d := OrEmpty(data);
    var p := d.personalInfo;
    View(MinimalImage, accent,
      Header(OrElse(p.name, "Your Name"), None, if p.profession != "" then Some(Upper(p.profession)) else None,
        Some(AvatarOf(p)), [], None, None),
      Sidebar(d), MainSections(d, now))
  }

  lemma SidebarGating(d: Resume, k: SectionKind)
    ensures HasSection(Sidebar(d), k) <==>
      k == ContactKind || (|d.education| > 0 && k == EducationKind) || (|d.skills| > 0 && k == SkillsKind)
  {
    HasSectionAppend([ContactSection(d.personalInfo)] + When(|d.education| > 0, EducationSection(d)), When(|d.skills| > 0, SkillsSection(d)), k);
    HasSectionAppend([ContactSection(d.personalInfo)], When(|d.education| > 0, EducationSection(d)), k);
    HasSectionWhen(|d.education| > 0, EducationSection(d), k);
    HasSectionWhen(|d.skills| > 0, SkillsSection(d), k);
    assert ContactSection(d.personalInfo) in [ContactSection(d.personalInfo)];
  }

  lemma MainGating(d: Resume, now: int, k: SectionKind)
    ensures HasSection(MainSections(d, now), k) <==>
      (d.summary != "" && k == SummaryKind) || (|d.experience| > 0 && k == ExperienceKind)
      || (|d.projects| > 0 && k == ProjectsKind)
  {
    HasSectionAppend(When(d.summary != "", SummarySection(d)) + When(|d.experience| > 0, ExperienceSection(d, now)), When(|d.projects| > 0, ProjectsSection(d)), k);
    HasSectionAppend(When(d.summary != "", SummarySection(d)), When(|d.experience| > 0, ExperienceSection(d, now)), k);
    HasSectionWhen(d.summary != "", SummarySection(d), k);
    HasSectionWhen(|d.experience| > 0, ExperienceSection(d, now), k);
    HasSectionWhen(|d.projects| > 0, ProjectsSection(d), k);
  }

  /**
   * The CONTACT block is always in the sidebar, even with no phone, email or
   * location; education and skills join it, and summary, experience and projects
   * fill the main column, each exactly when non-empty.
   */
  lemma SectionsPlacement(d: Resume, accent: string, now: int)
    ensures var v := Render(Some(d), accent, now);
      HasSection(v.sidebar, ContactKind)
      && (HasSection(v.sidebar, EducationKind) <==> |d.education| > 0)
      && (HasSection(v.sidebar, SkillsKind) <==> |d.skills| > 0)
      && (HasSection(v.main, SummaryKind) <==> d.summary != "")
      && (HasSection(v.main, ExperienceKind) <==> |d.experience| > 0)
      && (HasSection(v.main, ProjectsKind) <==> |d.projects| > 0)
      && !HasSection(v.main, EducationKind) && !HasSection(v.main, SkillsKind)
  {
    var v := Render(Some(d), accent, now);
    assert v.sidebar == Sidebar(d) && v.main == MainSections(d, now);
    SidebarGating(d, ContactKind);
    SidebarGating(d, EducationKind);
    SidebarGating(d, SkillsKind);
    MainGating(d, now, SummaryKind);
    MainGating(d, now, ExperienceKind);
    MainGating(d, now, ProjectsKind);
    MainGating(d, now, EducationKind);
    MainGating(d, now, SkillsKind);
  }

  /** With nothing filled in the sidebar still holds the empty CONTACT block. */
  lemma EmptyDocumentKeepsContact(accent: string, now: int)
    ensures Render(None, accent, now).sidebar == [Section(ContactKind, Some("CONTACT"), Contacts([]))]
    ensures Render(None, accent, now).main == []
  {
    assert ContactItems(OrEmpty(None).personalInfo) == [];
  }

  /**
   * No LinkedIn, website or GitHub item appears anywhere, and the header carries
   * no contact line and no GitHub line.
   */
  lemma NoWebPresence(data: Option<Resume>, accent: string, now: int)
    ensures var v := Render(data, accent, now);
      v.header.contacts == [] && v.header.githubSlot == None
      && forall c :: c in ContactItems(OrEmpty(data).personalInfo) ==> c.icon != LinkedIn && c.icon != Globe && c.icon != GitHub
  {
  }

  /** The avatar is the photo exactly when an image URL is set; the profession shows upper-cased, only when given. */
  lemma AvatarAndProfession(data: Option<Resume>, accent: string, now: int)
    ensures var p := OrEmpty(data).personalInfo; var h := Render(data, accent, now).header;
      h.avatar == Some(if p.imageUrl != "" then Photo(p.imageUrl) else PlaceholderIcon)
      && (h.profession.Some? <==> p.profession != "")
      && (h.profession.Some? ==>
            |h.profession.value| == |p.profession|
            && forall i :: 0 <= i < |p.profession| ==> h.profession.value[i] == UpperChar(p.profession[i]))
  {
  }

  /**
   * Both the experience and the projects sections bullet their descriptions: every
   * entry's body is one bullet per non-empty line of its own description, which
   * loses no text; jobs come latest first and projects in the order entered.
   */
  lemma BulletedDescriptions(d: Resume, accent: string, now: int)
    ensures |d.experience| > 0 ==>
      var sorted := SortExperience(d.experience, now);
      var es := MapExperience(sorted, None, true);
      Section(ExperienceKind, Some("EXPERIENCE"), Entries(es)) in Render(Some(d), accent, now).main
      && forall i :: 0 <= i < |es| ==> es[i].body == Bullets(NonEmptyLines(sorted[i].description))
    ensures |d.projects| > 0 ==>
      var ps := MapProjects(d.projects, None, true);
      Section(ProjectsKind, Some("PROJECTS"), Entries(ps)) in Render(Some(d), accent, now).main
      && forall i :: 0 <= i < |d.projects| ==> ps[i].body == Bullets(NonEmptyLines(d.projects[i].description))
    ensures forall e :: e in d.experience ==> Concat(NonEmptyLines(e.description)) == Without(e.description, '\n')
    ensures forall q :: q in d.projects ==> Concat(NonEmptyLines(q.description)) == Without(q.description, '\n')
  {
    MainHolds(d, now);
    BulletedExperience(SortExperience(d.experience, now));
    BulletedProjects(d.projects);
    forall e | e in d.experience ensures Concat(NonEmptyLines(e.description)) == Without(e.description, '\n') {
      NonEmptyLinesSpec(e.description);
    }
    forall q | q in d.projects ensures Concat(NonEmptyLines(q.description)) == Without(q.description, '\n') {
      NonEmptyLinesSpec(q.description);
    }
  }

  lemma MainHolds(d: Resume, now: int)
    ensures |d.experience| > 0 ==> ExperienceSection(d, now) in MainSections(d, now)
    ensures |d.projects| > 0 ==> ProjectsSection(d) in MainSections(d, now)
  {
  }

  lemma BulletedExperience(exp: seq<Experience>)
    ensures forall i :: 0 <= i < |exp| ==> MapExperience(exp, None, true)[i].body == Bullets(NonEmptyLines(exp[i].description))
  {
  }

  lemma BulletedProjects(ps: seq<Project>)
    ensures forall i :: 0 <= i < |ps| ==> MapProjects(ps, None, true)[i].body == Bullets(NonEmptyLines(ps[i].description))
  {
  }

  /** The page depends on experience and education only through their display order. */
  lemma SameOrderSameView(d: Resume, exp: seq<Experience>, edu: seq<Education>, accent: string, now: int)
    requires SortExperience(exp, now) == SortExperience(d.experience, now)
    requires SortEducation(edu) == SortEducation(d.education)
    ensures Render(Some(d.(experience := exp, education := edu)), accent, now) == Render(Some(d), accent, now)
  {
    SameOrderSameMain(d, exp, edu, now);
    assert Sidebar(d.(experience := exp, education := edu)) == Sidebar(d);
  }

  lemma SameOrderSameMain(d: Resume, exp: seq<Experience>, edu: seq<Education>, now: int)
    requires SortExperience(exp, now) == SortExperience(d.experience, now)
    requires SortEducation(edu) == SortEducation(d.education)
    ensures var d2 := d.(experience := exp, education := edu); MainSections(d2, now) == MainSections(d, now)
  {
    assert |exp| == |SortExperience(exp, now)| && |edu| == |SortEducation(edu)|;
  }
}
