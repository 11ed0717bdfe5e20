/**
 * The editor form (`ResumeForm`): the six-step wizard's navigation, the skills
 * input with its trim and case-insensitive duplicate check, the list buttons that
 * add entries at the front or remove one, and the three "enhance with AI" buttons.
 * Edits go to the page's form store and, through the form's change callback, to
 * the document the preview shows.
 */
module ResumeForm {
  import opened Wrappers
  import opened Document
  import opened Strings
  import opened BuilderPage

  /** `onNext`: one step forward unless already on the last one. */
  function NextStep(step: int, count: nat): (r: int)
    ensures step < count - 1 ==> r == step + 1
    ensures step >= count - 1 ==> r == step
  {
    if step < count - 1 then step + 1 else step
  }

  /** `onPrev`: one step back unless already on the first one. */
  function PrevStep(step: int): (r: int)
    ensures step > 0 ==> r == step - 1
    ensures step <= 0 ==> r == step
  {
    if step > 0 then step - 1 else step
  }

  /** Neither button ever leaves the range of steps. */
  lemma StepsStayInRange(step: int, count: nat)
    requires 0 <= step < count
    ensures 0 <= NextStep(step, count) < count
    ensures 0 <= PrevStep(step) < count
  {
  }

  /** Next then Previous comes back, away from the last step; Previous then Next, away from the first. */
  lemma NextPrevInverse(step: int, count: nat)
    requires 0 <= step < count
    ensures step < count - 1 ==> PrevStep(NextStep(step, count)) == step
    ensures step > 0 ==> NextStep(PrevStep(step), count) == step
  {
  }

  /** The step reached by pressing Next k times. */
  function NextPresses(step: int, count: nat, k: nat): int
    decreases k
  {
    if k == 0 then step else NextPresses(NextStep(step, count), count, k - 1)
  }

  /** From the first step, k presses of Next reach step k, and stop at the last step. */
  lemma {:induction false} NextPressesFromStart(step: int, count: nat, k: nat)
    requires 0 <= step < count
    ensures NextPresses(step, count, k) == if step + k < count then step + k else count - 1
    decreases k
  {
    if k > 0 {
      NextPressesFromStart(NextStep(step, count), count, k - 1);
    }
  }

  /** `renderStepTitle`'s heading: the step's title, or "Loading..." past the end of the list. */
  function StepHeading(step: nat, titles: seq<string>): (h: string)
    ensures step < |titles| ==> h == titles[step]
    ensures step >= |titles| ==> h == "Loading..."
  {
    if |titles| == 0 || step >= |titles| then "Loading..." else titles[step]
  }

  /** Whether each of the six editor sections is displayed on a step. */
  function VisibleSections(step: int): (vis: seq<bool>)
    ensures |vis| == 6
    ensures forall k :: 0 <= k < 6 ==> (vis[k] <==> k == step)
  {
    [step == 0, step == 1, step == 2, step == 3, step == 4, step == 5]
  }

  /** On every step of the wizard exactly one section shows, and it is the one its heading names. */
  lemma OneSectionPerStep(step: int)
    requires 0 <= step < |StepTitles|
    ensures VisibleSections(step)[step]
    ensures forall k :: 0 <= k < 6 && VisibleSections(step)[k] ==> k == step
    ensures StepHeading(step, StepTitles) == StepTitles[step]
  {
  }

  /** `existingSkills.some(skill => skill.name.toLowerCase() === name.toLowerCase())`. */
  predicate IsDuplicate(skills: seq<Skill>, name: string) {
    exists i :: 0 <= i < |skills| && Lower(skills[i].name) == Lower(name)
  }

  /** The `some` scan over the existing skills. */
  method FindDuplicate(skills: seq<Skill>, name: string) returns (found: bool)
    ensures found <==> IsDuplicate(skills, name)
  {
    var i := 0;
    while i < |skills|
      invariant 0 <= i <= |skills|
      invariant forall k :: 0 <= k < i ==> Lower(skills[k].name) != Lower(name)
    {
      if Lower(skills[i].name) == Lower(name) {
        return true;
      }
      i := i + 1;
    }
    return false;
  }

  /** No two skills have names that differ only in case. */
  predicate SkillsUnique(skills: seq<Skill>) {
    forall i, j :: 0 <= i < j < |skills| ==> Lower(skills[i].name) != Lower(skills[j].name)
  }

  /** What pressing Add does: nothing for blank input, a warning for a duplicate, or an append. */
  datatype AddOutcome = Blank | Duplicate | Added

  function AddSkillOutcome(skills: seq<Skill>, input: string): (o: AddOutcome)
    ensures o == Blank <==> Trim(JavaScript, input) == ""
    ensures o == Duplicate <==> Trim(JavaScript, input) != "" && IsDuplicate(skills, Trim(JavaScript, input))
  {
    if Trim(JavaScript, input) == "" then Blank
    else if IsDuplicate(skills, Trim(JavaScript, input)) then Duplicate
    else Added
  }

  /** The skills after pressing Add: the trimmed input appended when it was accepted. */
  function SkillsAfterAdd(skills: seq<Skill>, input: string): (r: seq<Skill>)
    ensures AddSkillOutcome(skills, input) == Added ==> r == skills + [Skill(Trim(JavaScript, input))]
    ensures AddSkillOutcome(skills, input) != Added ==> r == skills
  {
    if AddSkillOutcome(skills, input) == Added then skills + [Skill(Trim(JavaScript, input))] else skills
  }

  /** The input box after pressing Add: cleared when the skill was accepted, kept otherwise. */
  function InputAfterAdd(skills: seq<Skill>, input: string): (r: string)
    ensures r == "" <== AddSkillOutcome(skills, input) == Added
    ensures AddSkillOutcome(skills, input) != Added ==> r == input
  {
    if AddSkillOutcome(skills, input) == Added then "" else input
  }

  /** Adding never creates two skills that differ only in case, and an added name is trimmed and not blank. */
  lemma AddKeepsSkillsUnique(skills: seq<Skill>, input: string)
    requires SkillsUnique(skills)
    ensures SkillsUnique(SkillsAfterAdd(skills, input))
    ensures AddSkillOutcome(skills, input) == Added ==>
      var n := SkillsAfterAdd(skills, input)[|skills|].name;
      n != "" && !IsSpace(JavaScript, n[0]) && !IsSpace(JavaScript, n[|n| - 1])
  {
    if AddSkillOutcome(skills, input) == Added {
      var t := Trim(JavaScript, input);
      UniqueAppend(skills, t);
      assert (skills + [Skill(t)])[|skills|].name == t;
    }
  }

  /** A name no skill has, in any case, keeps the skills free of duplicates when appended. */
  lemma UniqueAppend(skills: seq<Skill>, t: string)
    requires SkillsUnique(skills) && !IsDuplicate(skills, t)
    ensures SkillsUnique(skills + [Skill(t)])
  {
    var r := skills + [Skill(t)];
    forall i, j | 0 <= i < j < |r| ensures Lower(r[i].name) != Lower(r[j].name) {
      assert r[i] == skills[i];
      if j < |skills| {
        assert r[j] == skills[j];
      }
    }
  }

  /** Typing the same skill again, in any case and with any surrounding spaces, is refused. */
  lemma AddAgainRefused(skills: seq<Skill>, input: string, again: string)
    requires AddSkillOutcome(skills, input) == Added
    requires Lower(Trim(JavaScript, again)) == Lower(Trim(JavaScript, input)) && Trim(JavaScript, again) != ""
    ensures AddSkillOutcome(SkillsAfterAdd(skills, input), again) == Duplicate
  {
    var r := SkillsAfterAdd(skills, input);
    assert r[|skills|].name == Trim(JavaScript, input);
  }

  /**
   * `remove(index)`: the entry at the index goes, the rest keep their order; an
   * index past the end removes nothing.
   */
  function RemoveAt<T>(s: seq<T>, index: nat): (r: seq<T>)
    ensures index >= |s| ==> r == s
    ensures index < |s| ==> |r| == |s| - 1
    ensures index < |s| ==> forall j :: 0 <= j < index ==> r[j] == s[j]
    ensures index < |s| ==> forall j :: index <= j < |r| ==> r[j] == s[j + 1]
  {
    if index < |s| then s[..index] + s[index + 1..] else s
  }

  /** Removing takes away exactly that one entry. */
  lemma RemoveAtTakesOne<T>(s: seq<T>, index: nat)
    requires index < |s|
    ensures multiset(RemoveAt(s, index)) + multiset{s[index]} == multiset(s)
  {
    assert s == s[..index] + [s[index]] + s[index + 1..];
  }

  /** Removing a skill, at any index, never creates two skills that differ only in case. */
  lemma RemoveKeepsSkillsUnique(skills: seq<Skill>, index: nat)
    requires SkillsUnique(skills)
    ensures SkillsUnique(RemoveAt(skills, index))
  {
    var r := RemoveAt(skills, index);
    forall i, j | 0 <= i < j < |r| ensures Lower(r[i].name) != Lower(r[j].name) {
      var i' := if i < index then i else i + 1;
      var j' := if j < index then j else j + 1;
      assert r[i] == skills[i'] && r[j] == skills[j'];
    }
  }

  /** `add(entry, 0)`: the new entry first, every existing one shifted back unchanged. */
  function AddFront<T>(x: T, s: seq<T>): (r: seq<T>)
    ensures |r| == |s| + 1 && r[0] == x
    ensures forall j :: 0 <= j < |s| ==> r[j + 1] == s[j]
  {
    [x] + s
  }

  /** A request to the enhancement endpoint; the summary and project buttons add a prompt. */
  datatype EnhanceRequest = EnhanceRequest(text: string, promptOverride: Option<string>)

  /** The endpoint's answer: the rewritten text, or any failure (an error status or a network error). */
  datatype EnhanceReply = Enhanced(text: string) | EnhanceFailed

  const SummaryPrompt := "Rewrite the following professional summary..."

  const ProjectPrompt := "Rewrite the following project description..."

  /**
   * `getFieldValue([list, index, 'description'])` for a job: its description, or
   * the empty value when no job has that index.
   */
  function ExperienceDescriptionAt(d: Resume, index: nat): (text: string)
    ensures index < |d.experience| ==> text == d.experience[index].description
    ensures index >= |d.experience| ==> text == ""
  {
    if index < |d.experience| then d.experience[index].description else ""
  }

  /** The same read for a project's description. */
  function ProjectDescriptionAt(d: Resume, index: nat): (text: string)
    ensures index < |d.projects| ==> text == d.projects[index].description
    ensures index >= |d.projects| ==> text == ""
  {
    if index < |d.projects| then d.projects[index].description else ""
  }

  /** The document with one experience description replaced. */
  function WithExperienceDescription(d: Resume, index: nat, text: string): (r: Resume)
    requires index < |d.experience|
    ensures |r.experience| == |d.experience|
    ensures r.experience[index].description == text
  {
    d.(experience := d.experience[index := d.experience[index].(description := text)])
  }

  /** The document with one project description replaced. */
  function WithProjectDescription(d: Resume, index: nat, text: string): (r: Resume)
    requires index < |d.projects|
    ensures |r.projects| == |d.projects|
    ensures r.projects[index].description == text
  {
    d.(projects := d.projects[index := d.projects[index].(description := text)])
  }

  /**
   * An enhancement changes only the description it targets: every other entry,
   * every other field of that entry and the rest of the document are kept.
   */
  lemma EnhanceTouchesOnlyTarget(d: Resume, index: nat, text: string)
    requires index < |d.experience|
    ensures var r := WithExperienceDescription(d, index, text);
      r.(experience := d.experience) == d
      && (forall j :: 0 <= j < |d.experience| && j != index ==> r.experience[j] == d.experience[j])
      && r.experience[index].(description := d.experience[index].description) == d.experience[index]
  {
  }

  lemma EnhanceProjectTouchesOnlyTarget(d: Resume, index: nat, text: string)
    requires index < |d.projects|
    ensures var r := WithProjectDescription(d, index, text);
      r.(projects := d.projects) == d
      && (forall j :: 0 <= j < |d.projects| && j != index ==> r.projects[j] == d.projects[j])
      && r.projects[index].(description := d.projects[index].description) == d.projects[index]
  {
  }

  /** The form's own state: the skill being typed and the three loading indicators. */
  datatype FormState = FormState(
    currentSkill: string,
    aiLoadingIndex: Option<nat>,
    aiLoadingSummary: bool,
    aiLoadingProjectIndex: Option<nat>)

  class Form {
    /** The builder page whose form store, step and preview this form drives. */
    const page: Page
    var currentSkill: string
    var aiLoadingIndex: Option<nat>
    var aiLoadingSummary: bool
    var aiLoadingProjectIndex: Option<nat>

    function State(): FormState
      reads this
    {
      FormState(currentSkill, aiLoadingIndex, aiLoadingSummary, aiLoadingProjectIndex)
    }

    constructor(page: Page)
      ensures this.page == page
      ensures State() == FormState("", None, false, None)
    {
      this.page := page;
      currentSkill := "";
      aiLoadingIndex := None;
      aiLoadingSummary := false;
      aiLoadingProjectIndex := None;
    }

    method OnNext()
      modifies page
      ensures page.State() == old(page.State()).(currentStep := NextStep(old(page.currentStep), |StepTitles|))
      ensures old(page.Valid()) ==> page.Valid()
    {
      if page.currentStep < |StepTitles| - 1 {
        page.currentStep := page.currentStep + 1;
      }
    }

    method OnPrev()
      modifies page
      ensures page.State() == old(page.State()).(currentStep := PrevStep(old(page.currentStep)))
      ensures old(page.Valid()) ==> page.Valid()
    {
      if page.currentStep > 0 {
        page.currentStep := page.currentStep - 1;
      }
    }

    /** Typing in the skills box. */
    method SetCurrentSkill(text: string)
      modifies this
      ensures State() == old(State()).(currentSkill := text)
    {
      currentSkill := text;
    }

    /** A list edit: the form store takes the new values and the change callback hands them to the page. */
    method Commit(values: Resume)
      modifies page
      ensures page.State() == old(page.State()).(form := values, resumeData := values)
    {
      page.SetFieldsValue(values);
      page.HandleFormChange(page.form);
    }

    /**
     * `handleAddSkillLocal`: blank input does nothing; a case-insensitive duplicate
     * of the trimmed input changes nothing; otherwise the trimmed skill is appended
     * and the input cleared.
     */
    method HandleAddSkill() returns (outcome: AddOutcome)
      modifies this, page
      ensures outcome == AddSkillOutcome(old(page.form.skills), old(currentSkill))
      ensures State() == old(State()).(currentSkill := InputAfterAdd(old(page.form.skills), old(currentSkill)))
      ensures outcome == Added ==>
        var values := old(page.form).(skills := SkillsAfterAdd(old(page.form.skills), old(currentSkill)));
        page.State() == old(page.State()).(form := values, resumeData := values)
      ensures outcome != Added ==> page.State() == old(page.State())
    {
      var name := Trim(JavaScript, currentSkill);
      if name == "" {
        return Blank;
      }
      var duplicate := FindDuplicate(page.form.skills, name);
      if duplicate {
        return Duplicate;
      }
      Commit(page.form.(skills := page.form.skills + [Skill(name)]));
      currentSkill := "";
      return Added;
    }

    /** `handleRemoveSkillLocal`: the skill at the index goes, the others keep their order. */
    method HandleRemoveSkill(index: nat)
      modifies page
      ensures var values := old(page.form).(skills := RemoveAt(old(page.form.skills), index));
        page.State() == old(page.State()).(form := values, resumeData := values)
    {
      Commit(page.form.(skills := RemoveAt(page.form.skills, index)));
    }

    /** "Add Experience": a blank job at the front of the list. */
    method AddExperience()
      modifies page
      ensures var values := old(page.form).(experience := AddFront(NewExperience, old(page.form.experience)));
        page.State() == old(page.State()).(form := values, resumeData := values)
    {
      Commit(page.form.(experience := AddFront(NewExperience, page.form.experience)));
    }

    method RemoveExperience(index: nat)
      modifies page
      ensures var values := old(page.form).(experience := RemoveAt(old(page.form.experience), index));
        page.State() == old(page.State()).(form := values, resumeData := values)
    {
      Commit(page.form.(experience := RemoveAt(page.form.experience, index)));
    }

    /** "Add Education": a blank school at the front of the list. */
    method AddEducation()
      modifies page
      ensures var values := old(page.form).(education := AddFront(NewEducation, old(page.form.education)));
        page.State() == old(page.State()).(form := values, resumeData := values)
    {
      Commit(page.form.(education := AddFront(NewEducation, page.form.education)));
    }

    method RemoveEducation(index: nat)
      modifies page
      ensures var values := old(page.form).(education := RemoveAt(old(page.form.education), index));
        page.State() == old(page.State()).(form := values, resumeData := values)
    {
      Commit(page.form.(education := RemoveAt(page.form.education, index)));
    }

    /** "Add Project": a blank project at the front of the list. */
    method AddProject()
      modifies page
      ensures var values := old(page.form).(projects := AddFront(NewProject, old(page.form.projects)));
        page.State() == old(page.State()).(form := values, resumeData := values)
    {
      Commit(page.form.(projects := AddFront(NewProject, page.form.projects)));
    }

    method RemoveProject(index: nat)
      modifies page
      ensures var values := old(page.form).(projects := RemoveAt(old(page.form.projects), index));
        page.State() == old(page.State()).(form := values, resumeData := values)
    {
      Commit(page.form.(projects := RemoveAt(page.form.projects, index)));
    }

    /**
     * `handleEnhanceExperienceAI`: with an empty description, or no job at the
     * index, nothing is sent and nothing changes; otherwise the description is sent without a prompt, a
     * rewritten text replaces that description only, and the loading indicator
     * ends cleared whatever the reply.
     */
    method EnhanceExperience(index: nat, reply: EnhanceReply) returns (req: Option<EnhanceRequest>)
      modifies this, page
      ensures var text := ExperienceDescriptionAt(old(page.form), index);
        req == (if text == "" then None else Some(EnhanceRequest(text, None)))
      ensures req == None ==> State() == old(State()) && page.State() == old(page.State())
      ensures req != None ==> State() == old(State()).(aiLoadingIndex := None)
      ensures req != None && reply.Enhanced? ==>
        var values := WithExperienceDescription(old(page.form), index, reply.text);
        page.State() == old(page.State()).(form := values, resumeData := values)
      ensures req != None && reply.EnhanceFailed? ==> page.State() == old(page.State())
    {
      var description := ExperienceDescriptionAt(page.form, index);
      if description == "" {
        return None;
      }
      aiLoadingIndex := Some(index);
      req := Some(EnhanceRequest(description, None));
      if reply.Enhanced? {
        Commit(WithExperienceDescription(page.form, index, reply.text));
      }
      aiLoadingIndex := None;
    }

    /**
     * `handleEnhanceSummaryAI`: as for a job description, with the summary prompt,
     * replacing the summary.
     */
    method EnhanceSummary(reply: EnhanceReply) returns (req: Option<EnhanceRequest>)
      modifies this, page
      ensures var text := old(page.form.summary);
        req == (if text == "" then None else Some(EnhanceRequest(text, Some(SummaryPrompt))))
      ensures req == None ==> State() == old(State()) && page.State() == old(page.State())
      ensures req != None ==> State() == old(State()).(aiLoadingSummary := false)
      ensures req != None && reply.Enhanced? ==>
        var values := old(page.form).(summary := reply.text);
        page.State() == old(page.State()).(form := values, resumeData := values)
      ensures req != None && reply.EnhanceFailed? ==> page.State() == old(page.State())
    {
      var summary := page.form.summary;
      if summary == "" {
        return None;
      }
      aiLoadingSummary := true;
      req := Some(EnhanceRequest(summary, Some(SummaryPrompt)));
      if reply.Enhanced? {
        Commit(page.form.(summary := reply.text));
      }
      aiLoadingSummary := false;
    }

    /** `handleEnhanceProjectAI`: as for a job description, with the project prompt. */
    method EnhanceProject(index: nat, reply: EnhanceReply) returns (req: Option<EnhanceRequest>)
      modifies this, page
      ensures var text := ProjectDescriptionAt(old(page.form), index);
        req == (if text == "" then None else Some(EnhanceRequest(text, Some(ProjectPrompt))))
      ensures req == None ==> State() == old(State()) && page.State() == old(page.State())
      ensures req != None ==> State() == old(State()).(aiLoadingProjectIndex := None)
      ensures req != None && reply.Enhanced? ==>
        var values := WithProjectDescription(old(page.form), index, reply.text);
        page.State() == old(page.State()).(form := values, resumeData := values)
      ensures req != None && reply.EnhanceFailed? ==> page.State() == old(page.State())
    {
      var description := ProjectDescriptionAt(page.form, index);
      if description == "" {
        return None;
      }
      aiLoadingProjectIndex := Some(index);
      req := Some(EnhanceRequest(description, Some(ProjectPrompt)));
      if reply.Enhanced? {
        Commit(WithProjectDescription(page.form, index, reply.text));
      }
      aiLoadingProjectIndex := None;
    }
  }
}
