/**
 * The builder page's editing session (`BuilderPage`): which résumé is being
 * edited and whether it was saved yet, the wizard step, the chosen template and
 * accent colour, the create dialog and the popovers. The server's reply to a save
 * is a parameter; the request the page sends is returned.
 */
module BuilderPage {
  import opened Wrappers
  import opened Document
  import opened View
  import ResumePreview

  /** The wizard's step headings, one per editor section. */
  const StepTitles: seq<string> := ["Personal Information", "Professional Summary", "Professional Experience",
    "Education", "Projects", "Skills"]

  const DefaultAccentColor := "#3b82f6"

  const DefaultTemplateId := "classic"

  const DefaultNewTitle := "My Resume"

  /** The swatches of the accent popover. */
  const ColorOptions: seq<string> := ["#3b82f6", "#10b981", "#ef4444", "#f97316", "#8b5cf6"]

  /** The ids of the template popover's options. */
  const TemplateIds: seq<string> := ["classic", "modern", "minimalImage", "minimal"]

  /** The template popover offers exactly the ids the preview's switch names. */
  lemma TemplateOptionsAreKnown(id: string)
    ensures id in TemplateIds <==> ResumePreview.KnownId(Some(id))
  {
  }

  /** A stored résumé's id as the server assigns it: a positive integer, so always truthy. */
  type ResumeId = x: int | x > 0 witness 1

  datatype SaveVerb = Post | Put(id: ResumeId)

  /** The body and route of a save: POST to the collection or PUT to the résumé. */
  datatype SaveRequest = SaveRequest(verb: SaveVerb, title: string, resumeData: Resume)

  /** The server's answer to a save: success (with the id of the stored résumé) or an error. */
  datatype SaveReply = Saved(id: ResumeId) | SaveFailed

  /**
   * What `handleSave` sends: a first save POSTs under the title typed in the create
   * dialog; once the résumé has an id it is PUT under "<name>'s Resume".
   */
  function SaveRequestFor(resumeId: Option<ResumeId>, formData: Resume, newTitle: string): (r: SaveRequest)
    ensures r.verb.Post? <==> resumeId.None?
    ensures resumeId.Some? ==> r.verb == Put(resumeId.value) && r.title == formData.personalInfo.name + "'s Resume"
    ensures resumeId.None? ==> r.title == newTitle
    ensures r.resumeData == formData
  {
    match resumeId
    case None => SaveRequest(Post, newTitle, formData)
    case Some(id) => SaveRequest(Put(id), formData.personalInfo.name + "'s Resume", formData)
  }

  /** The id after a save: recorded from a successful POST, otherwise kept. */
  function IdAfterSave(resumeId: Option<ResumeId>, reply: SaveReply): (r: Option<ResumeId>)
    ensures resumeId.Some? ==> r == resumeId
    ensures resumeId.None? ==> (r.Some? <==> reply.Saved?)
    ensures resumeId.None? && reply.Saved? ==> r == Some(reply.id)
  {
    if resumeId.None? && reply.Saved? then Some(reply.id) else resumeId
  }

  /**
   * Saving a new résumé twice: the first save POSTs and, once it succeeds, every
   * later save PUTs to the id it returned; a failed first save leaves the next one a POST.
   */
  lemma SecondSaveUpdates(formData: Resume, later: Resume, newTitle: string, reply: SaveReply)
    ensures SaveRequestFor(None, formData, newTitle).verb == Post
    ensures reply.Saved? ==>
      SaveRequestFor(IdAfterSave(None, reply), later, newTitle)
        == SaveRequest(Put(reply.id), later.personalInfo.name + "'s Resume", later)
    ensures reply.SaveFailed? ==> SaveRequestFor(IdAfterSave(None, reply), later, newTitle).verb == Post
  {
  }

  /** An id, once recorded, is never replaced by a save. */
  lemma {:induction false} IdRecordedOnce(id: ResumeId, replies: seq<SaveReply>)
    ensures SavesFrom(Some(id), replies) == Some(id)
  {
    if replies != [] {
      IdRecordedOnce(id, replies[1..]);
    }
  }

  /** The id after a series of saves. */
  function SavesFrom(resumeId: Option<ResumeId>, replies: seq<SaveReply>): Option<ResumeId>
    decreases replies
  {
    if replies == [] then resumeId else SavesFrom(IdAfterSave(resumeId, replies[0]), replies[1..])
  }

  /** Every state field of the page, as one value. */
  datatype PageState = PageState(
    resumeId: Option<ResumeId>,
    resumeData: Resume,
    form: Resume,
    currentStep: int,
    templateId: string,
    accentColor: string,
    accentPopoverVisible: bool,
    showEditor: bool,
    createModalVisible: bool,
    newResumeTitle: string,
    templatePopoverVisible: bool)

  /** The page as it first mounts. */
  function InitialState(): (s: PageState)
    ensures s.currentStep == 0 && s.templateId == "classic" && s.accentColor == "#3b82f6"
    ensures s.resumeId == None && !s.showEditor && s.resumeData == InitialData() && s.form == InitialData()
  {
    PageState(None, InitialData(), InitialData(), 0, DefaultTemplateId, DefaultAccentColor, false, false, false,
      DefaultNewTitle, false)
  }

  class Page {
    var resumeId: Option<ResumeId>
    /** The document the preview shows. */
    var resumeData: Resume
    /** The values held by the editor form. */
    var form: Resume
    var currentStep: int
    var templateId: string
    var accentColor: string
    var accentPopoverVisible: bool
    var showEditor: bool
    var createModalVisible: bool
    var newResumeTitle: string
    var templatePopoverVisible: bool

    function State(): PageState
      reads this
    {
      PageState(resumeId, resumeData, form, currentStep, templateId, accentColor, accentPopoverVisible,
        showEditor, createModalVisible, newResumeTitle, templatePopoverVisible)
    }

    /** The wizard step always names one of the six sections. */
    predicate Valid()
      reads this
    {
      0 <= currentStep < |StepTitles|
    }

    constructor()
      ensures State() == InitialState() && Valid()
    {
      resumeId := None;
      resumeData := InitialData();
      form := InitialData();
      currentStep := 0;
      templateId := DefaultTemplateId;
      accentColor := DefaultAccentColor;
      accentPopoverVisible := false;
      showEditor := false;
      createModalVisible := false;
      newResumeTitle := DefaultNewTitle;
      templatePopoverVisible := false;
    }

    /** What the preview column shows. */
    function Preview(now: int): (v: View)
      reads this
      ensures v.accentVar == accentColor
    {
      ResumePreview.Render(Some(resumeData), Some(templateId), accentColor, now)
    }

    /** The form store's `setFieldsValue` with the complete set of values. */
    method SetFieldsValue(values: Resume)
      modifies this
      ensures State() == old(State()).(form := values)
    {
      form := values;
    }

    /** `handleFormChange`: the preview follows the form's values. */
    method HandleFormChange(allValues: Resume)
      modifies this
      ensures State() == old(State()).(resumeData := allValues)
    {
      resumeData := allValues;
    }

    /**
     * `handleSave`: sends the form's values, POST without an id and PUT with one,
     * and records the id a successful POST returns; nothing else changes.
     */
    method HandleSave(reply: SaveReply) returns (req: SaveRequest)
      modifies this
      ensures req == SaveRequestFor(old(resumeId), old(form), old(newResumeTitle))
      ensures State() == old(State()).(resumeId := IdAfterSave(old(resumeId), reply))
    {
      req := SaveRequestFor(resumeId, form, newResumeTitle);
      if resumeId.None? && reply.Saved? {
        resumeId := Some(reply.id);
      }
    }

    /** Picking a template sets it and closes the template popover. */
    method HandleSelectTemplate(id: string)
      modifies this
      ensures State() == old(State()).(templateId := id, templatePopoverVisible := false)
    {
      templateId := id;
      templatePopoverVisible := false;
    }

    method SetTemplatePopoverVisible(visible: bool)
      modifies this
      ensures State() == old(State()).(templatePopoverVisible := visible)
    {
      templatePopoverVisible := visible;
    }

    /** `resetColor`: back to the default accent, popover closed. */
    method ResetColor()
      modifies this
      ensures State() == old(State()).(accentColor := DefaultAccentColor, accentPopoverVisible := false)
    {
      accentColor := DefaultAccentColor;
      accentPopoverVisible := false;
    }

    /** A swatch click: that colour, popover closed. */
    method PickSwatch(color: string)
      modifies this
      ensures State() == old(State()).(accentColor := color, accentPopoverVisible := false)
    {
      accentColor := color;
      accentPopoverVisible := false;
    }

    method HandleAccentVisibleChange(visible: bool)
      modifies this
      ensures State() == old(State()).(accentPopoverVisible := visible)
    {
      accentPopoverVisible := visible;
    }

    /** `showCreateModal`: the pending title goes back to "My Resume" and the dialog opens. */
    method ShowCreateModal()
      modifies this
      ensures State() == old(State()).(newResumeTitle := DefaultNewTitle, createModalVisible := true)
    {
      newResumeTitle := DefaultNewTitle;
      createModalVisible := true;
    }

    /** Typing in the create dialog's title box. */
    method SetNewResumeTitle(title: string)
      modifies this
      ensures State() == old(State()).(newResumeTitle := title)
    {
      newResumeTitle := title;
    }

    /**
     * `handleConfirmCreate`: a blank document in both the form and the preview,
     * no id, the first step, the editor shown and the dialog closed.
     */
    method HandleConfirmCreate()
      modifies this
      ensures State() == old(State()).(createModalVisible := false, form := InitialData(), resumeData := InitialData(),
        resumeId := None, currentStep := 0, showEditor := true)
      ensures Valid()
    {
      createModalVisible := false;
      form := InitialData();
      resumeData := InitialData();
      resumeId := None;
      currentStep := 0;
      showEditor := true;
    }

    /** `handleCancelCreate`: only the dialog closes. */
    method HandleCancelCreate()
      modifies this
      ensures State() == old(State()).(createModalVisible := false)
    {
      createModalVisible := false;
    }

    /** "Back to Options": the editor is hidden, everything else is kept. */
    method BackToOptions()
      modifies this
      ensures State() == old(State()).(showEditor := false)
    {
      showEditor := false;
    }
  }

  /**
   * A fresh page, then "create" confirmed with any title, then a save that succeeds:
   * the request is a POST under that title, and the page now holds the returned id.
   */
  method CreateThenSave(title: string, id: ResumeId) returns (page: Page, req: SaveRequest)
    ensures fresh(page) && page.resumeId == Some(id) && page.showEditor && page.Valid()
    ensures req == SaveRequest(Post, title, InitialData())
  {
    page := new Page();
    page.ShowCreateModal();
    page.SetNewResumeTitle(title);
    page.HandleConfirmCreate();
    req := page.HandleSave(Saved(id));
  }
}
