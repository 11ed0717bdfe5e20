/**
 * The abstract view the four résumé templates produce in place of a React tree:
 * a header and two columns of titled sections, each holding prose, entries,
 * skills or contact items. Dates stay symbolic: a fragment records which instant
 * is shown in dayjs's 'MMM YYYY' format instead of the formatted text.
 */
module View {
  import opened Wrappers
  import opened Document
  import opened Strings

  /** A piece of displayed text: a literal, a date formatted 'MMM YYYY', or dayjs's "Invalid Date". */
  datatype Fragment = Lit(text: string) | MonthYear(instant: int) | InvalidDate

  type Label = seq<Fragment>

  datatype Icon = Mail | Phone | Location | LinkedIn | Globe | GitHub

  datatype Contact = Contact(icon: Icon, text: string)

  datatype Avatar = Photo(url: string) | PlaceholderIcon

  /** An entry's description: none, one bullet per line, or a single paragraph. */
  datatype Body = NoBody | Bullets(lines: seq<string>) | Paragraph(text: string)

  /**
   * One experience, project or education item. `subtitleColor` is an inline
   * colour style; `date` is the right-hand date column; `gpa` the GPA line.
   */
  datatype Entry = Entry(
    title: string,
    subtitle: Option<string>,
    subtitleColor: Option<string>,
    date: Option<Label>,
    gpa: Option<string>,
    body: Body)

  /** A skill as shown, followed by the " • " separator or not. */
  datatype SkillItem = SkillItem(name: string, separator: bool)

  datatype SectionKind = ContactKind | SummaryKind | ExperienceKind | ProjectsKind | EducationKind | SkillsKind

  datatype Content = Prose(text: string) | Entries(entries: seq<Entry>) | Skills(items: seq<SkillItem>) | Contacts(contacts: seq<Contact>)

  /** A section; `heading` is None for the untitled summary of the minimal template. */
  datatype Section = Section(kind: SectionKind, heading: Option<string>, content: Content)

  /**
   * The header: the name (and its inline colour), the upper-cased profession,
   * the avatar, the contact line, the separate GitHub line and the divider colour,
   * each present only in the templates that show it.
   */
  datatype Header = Header(
    name: string,
    nameColor: Option<string>,
    profession: Option<string>,
    avatar: Option<Avatar>,
    contacts: seq<Contact>,
    githubSlot: Option<Contact>,
    dividerColor: Option<string>)

  datatype Layout = Classic | Modern | MinimalImage | Minimal

  /** A rendered résumé; `accentVar` is the `--accent-color` CSS variable every template sets. */
  datatype View = View(layout: Layout, accentVar: string, header: Header, sidebar: seq<Section>, main: seq<Section>)

  /** A list holding x when b holds, and nothing otherwise: JSX's `{b && x}`. */
  function When<T>(b: bool, x: T): seq<T> {
    if b then [x] else []
  }

  predicate HasSection(sections: seq<Section>, kind: SectionKind) {
    exists s :: s in sections && s.kind == kind
  }

  lemma HasSectionAppend(a: seq<Section>, b: seq<Section>, kind: SectionKind)
    ensures HasSection(a + b, kind) <==> HasSection(a, kind) || HasSection(b, kind)
  {
    if HasSection(a + b, kind) {
      var s :| s in a + b && s.kind == kind;
      assert s in a || s in b;
    }
    if HasSection(b, kind) {
      var s :| s in b && s.kind == kind;
      assert s in a + b;
    }
  }

  lemma HasSectionWhen(b: bool, s: Section, kind: SectionKind)
    ensures HasSection(When(b, s), kind) <==> b && s.kind == kind
  {
    if b && s.kind == kind {
      assert s in When(b, s);
    }
  }

  /** Which kinds a page of five optional sections, in the order every single-column template uses, shows. */
  lemma HasSectionOfFive(b1: bool, s1: Section, b2: bool, s2: Section, b3: bool, s3: Section,
                         b4: bool, s4: Section, b5: bool, s5: Section, kind: SectionKind)
    requires s1.kind == SummaryKind && s2.kind == ExperienceKind && s3.kind == ProjectsKind
    requires s4.kind == EducationKind && s5.kind == SkillsKind
    ensures HasSection(When(b1, s1) + When(b2, s2) + When(b3, s3) + When(b4, s4) + When(b5, s5), kind) <==>
      (b1 && kind == SummaryKind) || (b2 && kind == ExperienceKind) || (b3 && kind == ProjectsKind)
      || (b4 && kind == EducationKind) || (b5 && kind == SkillsKind)
  {
    HasSectionAppend(When(b1, s1) + When(b2, s2) + When(b3, s3) + When(b4, s4), When(b5, s5), kind);
    HasSectionAppend(When(b1, s1) + When(b2, s2) + When(b3, s3), When(b4, s4), kind);
    HasSectionAppend(When(b1, s1) + When(b2, s2), When(b3, s3), kind);
    HasSectionAppend(When(b1, s1), When(b2, s2), kind);
    HasSectionWhen(b1, s1, kind);
    HasSectionWhen(b2, s2, kind);
    HasSectionWhen(b3, s3, kind);
    HasSectionWhen(b4, s4, kind);
    HasSectionWhen(b5, s5, kind);
  }

  /** A page of five optional sections in the usual order shows each kind exactly when its flag is set, and never a contact section. */
  lemma ShownOfFive(b1: bool, s1: Section, b2: bool, s2: Section, b3: bool, s3: Section,
                    b4: bool, s4: Section, b5: bool, s5: Section)
    requires s1.kind == SummaryKind && s2.kind == ExperienceKind && s3.kind == ProjectsKind
    requires s4.kind == EducationKind && s5.kind == SkillsKind
    ensures var m := When(b1, s1) + When(b2, s2) + When(b3, s3) + When(b4, s4) + When(b5, s5);
      (HasSection(m, SummaryKind) <==> b1) && (HasSection(m, ExperienceKind) <==> b2)
      && (HasSection(m, ProjectsKind) <==> b3) && (HasSection(m, EducationKind) <==> b4)
      && (HasSection(m, SkillsKind) <==> b5) && !HasSection(m, ContactKind)
  {
    HasSectionOfFive(b1, s1, b2, s2, b3, s3, b4, s4, b5, s5, SummaryKind);
    HasSectionOfFive(b1, s1, b2, s2, b3, s3, b4, s4, b5, s5, ExperienceKind);
    HasSectionOfFive(b1, s1, b2, s2, b3, s3, b4, s4, b5, s5, ProjectsKind);
    HasSectionOfFive(b1, s1, b2, s2, b3, s3, b4, s4, b5, s5, EducationKind);
    HasSectionOfFive(b1, s1, b2, s2, b3, s3, b4, s4, b5, s5, SkillsKind);
    HasSectionOfFive(b1, s1, b2, s2, b3, s3, b4, s4, b5, s5, ContactKind);
  }

  /** `date ? dayjs(date).format('MMM YYYY') : ''`. */
  function DateFragment(d: DateField): (f: Fragment)
    ensures f == Lit("") <==> d.NoDate?
    ensures f.MonthYear? <==> d.At?
  {
    match d
    case NoDate => Lit("")
    case Unparseable => InvalidDate
    case At(t) => MonthYear(t)
  }

  /** The experience date column: start, a dash, then "Present" for an ongoing job or the end. */
  function ExperienceDate(e: Experience): (column: Label)
    ensures |column| == 3 && column[0] == DateFragment(e.startDate) && column[1] == Lit(" - ")
    ensures column[2] == Lit("Present") <==> e.currentlyWorking
    ensures !e.currentlyWorking ==> column[2] == DateFragment(e.endDate)
  {
    [DateFragment(e.startDate), Lit(" - "), if e.currentlyWorking then Lit("Present") else DateFragment(e.endDate)]
  }

  /** `url && url.includes('github.com')`. */
  predicate IsGithub(url: string) {
    url != "" && Contains(url, "github.com")
  }

  /**
   * The degree title of the classic, modern and minimal templates as written:
   * `{degree}{field ? ' in ' + field : '' || 'Degree'}`. The `|| 'Degree'` binds
   * inside the conditional's else arm, so the word "Degree" is appended whenever
   * the field of study is empty, whatever the degree.
   */
  function DegreeTitle(degree: string, field: string): (t: string)
    ensures t != ""
    ensures StartsWith(t, degree)
    ensures field == "" ==> t == degree + "Degree"
    ensures field != "" ==> t == degree + " in " + field
  {
    degree + (if field != "" then " in " + field else "Degree")
  }

  /** The entries of a description text: bullets per non-empty line, or one paragraph with a fallback. */
  function DescriptionBody(description: string, bulleted: bool, fallback: string): (b: Body)
    requires fallback != ""
    ensures bulleted ==> b == Bullets(NonEmptyLines(description))
    ensures !bulleted ==> b.Paragraph? && b.text != "" && (description != "" ==> b.text == description)
  {
    if bulleted then Bullets(NonEmptyLines(description)) else Paragraph(OrElse(description, fallback))
  }

  /** An experience item: title and company with placeholders, the date column and the description. */
  function ExperienceEntry(e: Experience, subtitleColor: Option<string>, bulleted: bool): (r: Entry)
    ensures r.title != "" && (e.title != "" ==> r.title == e.title)
    ensures r.subtitle.Some? && r.subtitle.value != "" && (e.company != "" ==> r.subtitle.value == e.company)
    ensures e.title == "" ==> r.title == "Job Title"
    ensures e.company == "" ==> r.subtitle == Some("Company Name")
    ensures r.subtitleColor == subtitleColor && r.date == Some(ExperienceDate(e)) && r.gpa == None
    ensures r.body == DescriptionBody(e.description, bulleted, "Description...")
  {
    Entry(OrElse(e.title, "Job Title"), Some(OrElse(e.company, "Company Name")), subtitleColor,
      Some(ExperienceDate(e)), None, DescriptionBody(e.description, bulleted, "Description..."))
  }

  /** A project item: the name with a placeholder, the type only when given, the description. */
  function ProjectEntry(p: Project, subtitleColor: Option<string>, bulleted: bool): (r: Entry)
    ensures r.title != "" && (p.name != "" ==> r.title == p.name)
    ensures r.subtitle.Some? <==> p.projectType != ""
    ensures r.subtitle.Some? ==> r.subtitle.value == p.projectType
    ensures p.name == "" ==> r.title == "Project Name"
    ensures r.subtitleColor == (if p.projectType != "" then subtitleColor else None)
    ensures r.date == None && r.gpa == None
    ensures r.body == DescriptionBody(p.description, bulleted, "Project description...")
  {
    Entry(OrElse(p.name, "Project Name"), if p.projectType != "" then Some(p.projectType) else None,
      if p.projectType != "" then subtitleColor else None, None, None,
      DescriptionBody(p.description, bulleted, "Project description..."))
  }

  /** An education item of the classic, modern and minimal templates. */
  function EducationEntry(e: Education, subtitleColor: Option<string>): (r: Entry)
    ensures r.title == DegreeTitle(e.degree, e.fieldOfStudy)
    ensures r.subtitle.Some? && r.subtitle.value != "" && (e.institutionName != "" ==> r.subtitle.value == e.institutionName)
    ensures e.institutionName == "" ==> r.subtitle == Some("Institution Name")
    ensures r.subtitleColor == subtitleColor
    ensures r.gpa.Some? <==> e.gpa != ""
    ensures r.gpa.Some? ==> r.gpa.value == "GPA: " + e.gpa
    ensures r.date == Some([DateFragment(e.date)]) && r.body == NoBody
  {
    Entry(DegreeTitle(e.degree, e.fieldOfStudy), Some(OrElse(e.institutionName, "Institution Name")), subtitleColor,
      Some([DateFragment(e.date)]), if e.gpa != "" then Some("GPA: " + e.gpa) else None, NoBody)
  }

  function MapExperience(exp: seq<Experience>, subtitleColor: Option<string>, bulleted: bool): (r: seq<Entry>)
    ensures |r| == |exp|
    ensures forall i :: 0 <= i < |exp| ==> r[i] == ExperienceEntry(exp[i], subtitleColor, bulleted)
  {
    if exp == [] then [] else [ExperienceEntry(exp[0], subtitleColor, bulleted)] + MapExperience(exp[1..], subtitleColor, bulleted)
  }

  function MapProjects(ps: seq<Project>, subtitleColor: Option<string>, bulleted: bool): (r: seq<Entry>)
    ensures |r| == |ps|
    ensures forall i :: 0 <= i < |ps| ==> r[i] == ProjectEntry(ps[i], subtitleColor, bulleted)
  {
    if ps == [] then [] else [ProjectEntry(ps[0], subtitleColor, bulleted)] + MapProjects(ps[1..], subtitleColor, bulleted)
  }

  function MapEducation(edu: seq<Education>, subtitleColor: Option<string>): (r: seq<Entry>)
    ensures |r| == |edu|
    ensures forall i :: 0 <= i < |edu| ==> r[i] == EducationEntry(edu[i], subtitleColor)
  {
    if edu == [] then [] else [EducationEntry(edu[0], subtitleColor)] + MapEducation(edu[1..], subtitleColor)
  }

  /** The skill names that are not empty, in order. */
  function NamedSkills(skills: seq<Skill>): (names: seq<string>)
    ensures |names| <= |skills|
    ensures forall x :: x in names <==> x != "" && Skill(x) in skills
  {
    if skills == [] then [] else When(skills[0].name != "", skills[0].name) + NamedSkills(skills[1..])
  }

  /** Filtering a list in two parts is filtering each part, so the names keep their order. */
  lemma {:induction false} NamedSkillsAppend(a: seq<Skill>, b: seq<Skill>)
    ensures NamedSkills(a + b) == NamedSkills(a) + NamedSkills(b)
  {
    if a == [] {
      assert a + b == b;
    } else {
      NamedSkillsAppend(a[1..], b);
      NamedSkillsCons(a, b);
    }
  }

  lemma NamedSkillsCons(a: seq<Skill>, b: seq<Skill>)
    requires a != []
    ensures NamedSkills(a + b) == When(a[0].name != "", a[0].name) + NamedSkills(a[1..] + b)
  {
    assert (a + b)[0] == a[0] && (a + b)[1..] == a[1..] + b;
  }

  function ItemNames(items: seq<SkillItem>): seq<string> {
    if items == [] then [] else [items[0].name] + ItemNames(items[1..])
  }

  /**
   * `skills.map((skill, index) => skill.name && …)` from position i on: one item per
   * named skill, with a separator after it when separators are drawn and its index is
   * below the last index of the whole list.
   */
  function SkillItemsFrom(skills: seq<Skill>, i: nat, separators: bool): seq<SkillItem>
    requires i <= |skills|
    decreases |skills| - i
  {
    if i == |skills| then []
    else
      When(skills[i].name != "", SkillItem(skills[i].name, separators && i < |skills| - 1))
        + SkillItemsFrom(skills, i + 1, separators)
  }

  function SkillItems(skills: seq<Skill>, separators: bool): seq<SkillItem> {
    SkillItemsFrom(skills, 0, separators)
  }

  lemma {:induction false} ItemNamesConcat(a: seq<SkillItem>, b: seq<SkillItem>)
    ensures ItemNames(a + b) == ItemNames(a) + ItemNames(b)
  {
    if a != [] {
      ItemNamesConcat(a[1..], b);
      assert (a + b)[0] == a[0];
      assert (a + b)[1..] == a[1..] + b;
      assert ItemNames(a + b) == [a[0].name] + ItemNames(a[1..] + b);
    } else {
      assert a + b == b;
    }
  }

  lemma {:induction false} SkillItemsFromNames(skills: seq<Skill>, i: nat, separators: bool)
    requires i <= |skills|
    ensures ItemNames(SkillItemsFrom(skills, i, separators)) == NamedSkills(skills[i..])
    decreases |skills| - i
  {
    if i < |skills| {
      SkillItemsFromNames(skills, i + 1, separators);
      var head := When(skills[i].name != "", SkillItem(skills[i].name, separators && i < |skills| - 1));
      var rest := SkillItemsFrom(skills, i + 1, separators);
      ItemNamesConcat(head, rest);
      assert skills[i..][0] == skills[i];
      assert skills[i..][1..] == skills[i + 1..];
      assert ItemNames(head) == When(skills[i].name != "", skills[i].name);
    } else {
      assert skills[i..] == [];
    }
  }

  lemma {:induction false} SkillItemsFromInner(skills: seq<Skill>, i: nat)
    requires i <= |skills|
    ensures forall j :: 0 <= j < |SkillItemsFrom(skills, i, true)| - 1 ==> SkillItemsFrom(skills, i, true)[j].separator
    decreases |skills| - i
  {
    if i < |skills| {
      SkillItemsFromInner(skills, i + 1);
      var head := When(skills[i].name != "", SkillItem(skills[i].name, i < |skills| - 1));
      var rest := SkillItemsFrom(skills, i + 1, true);
      if i < |skills| - 1 && head != [] {
        var r := head + rest;
        forall j | 0 <= j < |r| - 1 ensures r[j].separator {
          if j > 0 {
            assert r[j] == rest[j - 1];
          }
        }
      }
    }
  }

  /** No skill from position i on has a name. */
  predicate BlankFrom(skills: seq<Skill>, i: nat) {
    forall j :: i <= j < |skills| ==> skills[j].name == ""
  }

  lemma {:induction false} SkillItemsFromBlank(skills: seq<Skill>, i: nat, separators: bool)
    requires i <= |skills| && BlankFrom(skills, i)
    ensures SkillItemsFrom(skills, i, separators) == []
    decreases |skills| - i
  {
    if i < |skills| {
      SkillItemsFromBlank(skills, i + 1, separators);
    }
  }

  /**
   * From any position up to the last named skill k, the items end with that skill,
   * carrying a separator exactly when separators are drawn and k is not the last index.
   */
  lemma {:induction false} SkillItemsFromLast(skills: seq<Skill>, i: nat, k: nat, separators: bool)
    requires i <= k < |skills| && skills[k].name != "" && BlankFrom(skills, k + 1)
    ensures EndsWith(SkillItemsFrom(skills, i, separators), SkillItem(skills[k].name, separators && k < |skills| - 1))
    decreases k - i
  {
    if i < k {
      SkillItemsFromLast(skills, i + 1, k, separators);
      SkillItemsFromKeepsEnd(skills, i, separators, SkillItem(skills[k].name, separators && k < |skills| - 1));
    } else {
      SkillItemsFromBlank(skills, k + 1, separators);
    }
  }

  lemma SkillItemsFromKeepsEnd(skills: seq<Skill>, i: nat, separators: bool, x: SkillItem)
    requires i < |skills| && EndsWith(SkillItemsFrom(skills, i + 1, separators), x)
    ensures EndsWith(SkillItemsFrom(skills, i, separators), x)
  {
    EndsWithAppend(When(skills[i].name != "", SkillItem(skills[i].name, separators && i < |skills| - 1)),
      SkillItemsFrom(skills, i + 1, separators), x);
  }

  /** The list is non-empty and its last item is x. */
  predicate EndsWith(s: seq<SkillItem>, x: SkillItem) {
    s != [] && s[|s| - 1] == x
  }

  lemma EndsWithAppend(a: seq<SkillItem>, b: seq<SkillItem>, x: SkillItem)
    requires EndsWith(b, x)
    ensures EndsWith(a + b, x)
  {
  }

  lemma {:induction false} SkillItemsFromPlain(skills: seq<Skill>, i: nat)
    requires i <= |skills|
    ensures forall j :: 0 <= j < |SkillItemsFrom(skills, i, false)| ==> !SkillItemsFrom(skills, i, false)[j].separator
    decreases |skills| - i
  {
    if i < |skills| {
      SkillItemsFromPlain(skills, i + 1);
    }
  }

  /**
   * The skills line: the named skills in order, and when separators are drawn every
   * item but the last carries one; the last carries none when the final skill is named.
   */
  lemma SkillItemsSpec(skills: seq<Skill>, separators: bool)
    ensures ItemNames(SkillItems(skills, separators)) == NamedSkills(skills)
    ensures var r := SkillItems(skills, separators);
      separators ==> forall j :: 0 <= j < |r| - 1 ==> r[j].separator
    ensures var r := SkillItems(skills, separators);
      |r| > 0 && skills[|skills| - 1].name != "" ==> !r[|r| - 1].separator
    ensures var r := SkillItems(skills, separators);
      !separators ==> forall j :: 0 <= j < |r| ==> !r[j].separator
  {
    SkillItemsFromNames(skills, 0, separators);
    if separators {
      SkillItemsFromInner(skills, 0);
    } else {
      SkillItemsFromPlain(skills, 0);
    }
    if |SkillItems(skills, separators)| > 0 && skills[|skills| - 1].name != "" {
      SkillItemsFromLast(skills, 0, |skills| - 1, separators);
    }
    assert skills[0..] == skills;
  }

  /**
   * The separator test looks at the index in the whole list, not among the named
   * skills: when the last named skill is followed only by blank ones, the line ends
   * with it and a trailing " • ".
   */
  lemma TrailingSeparatorAfterBlankLastSkill(skills: seq<Skill>, k: nat)
    requires k < |skills| - 1 && skills[k].name != "" && BlankFrom(skills, k + 1)
    ensures var r := SkillItems(skills, true); r != [] && r[|r| - 1] == SkillItem(skills[k].name, true)
  {
    SkillItemsFromLast(skills, 0, k, true);
  }

  /** The items whose text is not empty, in order: JSX's `{field && <item/>}` for each. */
  function Present(cs: seq<Contact>): (r: seq<Contact>)
    ensures forall c :: c in r <==> c in cs && c.text != ""
  {
    if cs == [] then []
    else
      assert cs == [cs[0]] + cs[1..];
      When(cs[0].text != "", cs[0]) + Present(cs[1..])
  }

  /** The items' icons rise strictly in the given rank. */
  predicate Ranked(cs: seq<Contact>, rank: Icon -> nat) {
    forall i, j :: 0 <= i < j < |cs| ==> rank(cs[i].icon) < rank(cs[j].icon)
  }

  /** Dropping items keeps the others in their order. */
  lemma {:induction false} PresentRanked(cs: seq<Contact>, rank: Icon -> nat)
    requires Ranked(cs, rank)
    ensures Ranked(Present(cs), rank)
  {
    if cs != [] {
      PresentRanked(cs[1..], rank);
      var rest := Present(cs[1..]);
      forall c | c in rest ensures rank(cs[0].icon) < rank(c.icon) {
        var k :| 0 <= k < |cs[1..]| && cs[1..][k] == c;
        assert cs[k + 1] == c;
      }
      if cs[0].text != "" {
        RankedCons(cs[0], rest, rank);
      }
    }
  }

  lemma RankedCons(x: Contact, rest: seq<Contact>, rank: Icon -> nat)
    requires Ranked(rest, rank) && forall c :: c in rest ==> rank(x.icon) < rank(c.icon)
    ensures Ranked([x] + rest, rank)
  {
    var r := [x] + rest;
    forall i, j | 0 <= i < j < |r| ensures rank(r[i].icon) < rank(r[j].icon) {
      assert r[j] == rest[j - 1] && r[j] in rest;
      if i > 0 {
        assert r[i] == rest[i - 1];
      }
    }
  }

  /** Every candidate item shows its own field under its icon. */
  predicate OwnFields(p: PersonalInfo, cs: seq<Contact>) {
    forall c :: c in cs ==> c.text == FieldText(p, c.icon)
  }

  /** A field shows exactly when it is set: each candidate icon's item is present iff its field is non-empty. */
  lemma PresentFields(p: PersonalInfo, cs: seq<Contact>, icon: Icon)
    requires OwnFields(p, cs) && Contact(icon, FieldText(p, icon)) in cs
    ensures HasIcon(Present(cs), icon) <==> FieldText(p, icon) != ""
  {
    if FieldText(p, icon) != "" {
      assert Contact(icon, FieldText(p, icon)) in Present(cs);
    }
  }

  function BasicCandidates(p: PersonalInfo): seq<Contact> {
    [Contact(Mail, p.email), Contact(Phone, p.phone), Contact(Location, p.location), Contact(LinkedIn, p.linkedin)]
  }

  lemma BasicCandidatesFacts(p: PersonalInfo)
    ensures var cs := BasicCandidates(p);
      OwnFields(p, cs) && (forall c :: c in cs ==> c.icon != Globe && c.icon != GitHub)
      && Ranked(cs, LineRank)
  {
  }

  /**
   * The email, phone, location and LinkedIn items, in that order: each shows its own
   * field under its own icon, exactly when the field is set.
   */
  function BasicContacts(p: PersonalInfo): (r: seq<Contact>)
    ensures forall c :: c in r ==> c.icon != Globe && c.icon != GitHub && c.text != "" && c.text == FieldText(p, c.icon)
    ensures HasIcon(r, Mail) <==> p.email != ""
    ensures HasIcon(r, Phone) <==> p.phone != ""
    ensures HasIcon(r, Location) <==> p.location != ""
    ensures HasIcon(r, LinkedIn) <==> p.linkedin != ""
    ensures forall i, j :: 0 <= i < j < |r| ==> LineRank(r[i].icon) < LineRank(r[j].icon)
  {
    var cs := BasicCandidates(p);
    BasicCandidatesFacts(p);
    PresentRanked(cs, LineRank);
    PresentFields(p, cs, Mail);
    PresentFields(p, cs, Phone);
    PresentFields(p, cs, Location);
    PresentFields(p, cs, LinkedIn);
    Present(cs)
  }

  /** Whether some item of the list carries the icon. */
  predicate HasIcon(contacts: seq<Contact>, icon: Icon) {
    exists c :: c in contacts && c.icon == icon
  }

  /** The personal field each contact icon shows. */
  function FieldText(p: PersonalInfo, icon: Icon): string {
    match icon
    case Mail => p.email
    case Phone => p.phone
    case Location => p.location
    case LinkedIn => p.linkedin
    case Globe => p.website
    case GitHub => p.website
  }

  /** The position of each item on the contact line: email, phone, location, LinkedIn, then the website. */
  function LineRank(icon: Icon): nat {
    match icon
    case Mail => 0
    case Phone => 1
    case Location => 2
    case LinkedIn => 3
    case Globe => 4
    case GitHub => 4
  }

  /**
   * The contact line of the modern and minimal templates: a GitHub address gets the
   * GitHub icon and any other website the globe icon.
   */
  function ContactsWithWebsite(p: PersonalInfo): seq<Contact> {
    BasicContacts(p)
      + When(IsGithub(p.website), Contact(GitHub, p.website))
      + When(p.website != "" && !IsGithub(p.website), Contact(Globe, p.website))
  }

  /** The website shows once: with the GitHub icon exactly when it is a GitHub address, with the globe otherwise. */
  lemma WebsiteIconExclusive(p: PersonalInfo)
    ensures var cs := ContactsWithWebsite(p);
      (HasIcon(cs, GitHub) <==> IsGithub(p.website))
      && (HasIcon(cs, Globe) <==> p.website != "" && !IsGithub(p.website))
      && !(HasIcon(cs, GitHub) && HasIcon(cs, Globe))
      && (p.website != "" ==> Contact(GitHub, p.website) in cs || Contact(Globe, p.website) in cs)
  {
    var cs := ContactsWithWebsite(p);
    if IsGithub(p.website) {
      assert Contact(GitHub, p.website) in cs;
    }
    if p.website != "" && !IsGithub(p.website) {
      assert Contact(Globe, p.website) in cs;
    }
  }

  /** Every entry subtitle in the sections carries the colour, and an entry without a subtitle carries none. */
  ghost predicate SubtitlesColored(sections: seq<Section>, color: Option<string>) {
    forall s, e :: s in sections && s.content.Entries? && e in s.content.entries ==>
      e.subtitleColor == (if e.subtitle.Some? then color else None)
  }

  lemma SubtitlesColoredAppend(a: seq<Section>, b: seq<Section>, color: Option<string>)
    requires SubtitlesColored(a, color) && SubtitlesColored(b, color)
    ensures SubtitlesColored(a + b, color)
  {
  }

  /** Which sections of a page of five optional sections have their subtitles coloured. */
  lemma SubtitlesColoredOfFive(b1: bool, s1: Section, b2: bool, s2: Section, b3: bool, s3: Section,
                               b4: bool, s4: Section, b5: bool, s5: Section, color: Option<string>)
    requires SubtitlesColored(When(b1, s1), color) && SubtitlesColored(When(b2, s2), color)
    requires SubtitlesColored(When(b3, s3), color) && SubtitlesColored(When(b4, s4), color)
    requires SubtitlesColored(When(b5, s5), color)
    ensures SubtitlesColored(When(b1, s1) + When(b2, s2) + When(b3, s3) + When(b4, s4) + When(b5, s5), color)
  {
    SubtitlesColoredAppend(When(b1, s1), When(b2, s2), color);
    SubtitlesColoredAppend(When(b1, s1) + When(b2, s2), When(b3, s3), color);
    SubtitlesColoredAppend(When(b1, s1) + When(b2, s2) + When(b3, s3), When(b4, s4), color);
    SubtitlesColoredAppend(When(b1, s1) + When(b2, s2) + When(b3, s3) + When(b4, s4), When(b5, s5), color);
  }

  lemma NoEntriesColored(b: bool, s: Section, color: Option<string>)
    requires !s.content.Entries?
    ensures SubtitlesColored(When(b, s), color)
  {
  }

  lemma EntriesColored(kind: SectionKind, heading: Option<string>, es: seq<Entry>, b: bool, color: Option<string>)
    requires forall e :: e in es ==> e.subtitleColor == (if e.subtitle.Some? then color else None)
    ensures SubtitlesColored(When(b, Section(kind, heading, Entries(es))), color)
  {
  }

  lemma MapColors(exp: seq<Experience>, ps: seq<Project>, edu: seq<Education>, color: Option<string>, bulleted: bool)
    ensures forall e :: e in MapExperience(exp, color, bulleted) ==> e.subtitleColor == (if e.subtitle.Some? then color else None)
    ensures forall e :: e in MapProjects(ps, color, bulleted) ==> e.subtitleColor == (if e.subtitle.Some? then color else None)
    ensures forall e :: e in MapEducation(edu, color) ==> e.subtitleColor == (if e.subtitle.Some? then color else None)
  {
  }
}
