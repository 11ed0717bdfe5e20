/**
 * `ResumePreview`: the template id chosen in the builder selects one of the four
 * templates, which receives the document and the accent colour unchanged; any
 * other id, an absent one included, falls back to the classic template.
 */
module ResumePreview {
  import opened Wrappers
  import opened Document
  import opened View
  import opened ChronoSort
  import TemplateA
  import TemplateB
  import TemplateC
  import TemplateD

  /** The ids the switch names; an absent id is `None`. */
  predicate KnownId(templateId: Option<string>) {
    templateId in {Some("classic"), Some("modern"), Some("minimalImage"), Some("minimal")}
  }

  /** The layout the switch picks for an id: its own for a known id, the classic one otherwise. */
  function LayoutOf(templateId: Option<string>): Layout {
    match templateId
    case Some("modern") => Modern
    case Some("minimalImage") => MinimalImage
    case Some("minimal") => Minimal
    case _ => Classic
  }

  function Render(data: Option<Resume>, templateId: Option<string>, accent: string, now: int): (v: View)
    ensures v.accentVar == accent
    ensures v.layout == LayoutOf(templateId)
  {
    match templateId
    case Some("modern") => TemplateB.Render(data, accent, now)
    case Some("minimalImage") => TemplateC.Render(data, accent, now)
    case Some("minimal") => TemplateD.Render(data, accent)
    case _ => TemplateA.Render(data, accent, now)
  }

  /** Each known id selects its own layout, and the layout tells which template was used. */
  lemma LayoutOfId(data: Option<Resume>, templateId: Option<string>, accent: string, now: int)
    ensures var l := Render(data, templateId, accent, now).layout;
      (l == Modern <==> templateId == Some("modern"))
      && (l == MinimalImage <==> templateId == Some("minimalImage"))
      && (l == Minimal <==> templateId == Some("minimal"))
      && (l == Classic <==> !KnownId(templateId) || templateId == Some("classic"))
  {
    LayoutOfCases(templateId);
  }

  lemma LayoutOfCases(templateId: Option<string>)
    ensures var l := LayoutOf(templateId);
      (l == Modern <==> templateId == Some("modern"))
      && (l == MinimalImage <==> templateId == Some("minimalImage"))
      && (l == Minimal <==> templateId == Some("minimal"))
      && (l == Classic <==> !KnownId(templateId) || templateId == Some("classic"))
  {
  }

  /** Any id the switch does not name renders exactly as 'classic' does. */
  lemma UnknownIdIsClassic(data: Option<Resume>, templateId: Option<string>, accent: string, now: int)
    requires !KnownId(templateId)
    ensures Render(data, templateId, accent, now) == Render(data, Some("classic"), accent, now)
  {
  }

  /**
   * Every template shows the document as sorted: handing it experience and
   * education already in their display order gives the same page, except that the
   * minimal template, which keeps the entered experience order, needs only the
   * education sorted.
   */
  lemma SortedInputSameView(d: Resume, templateId: Option<string>, accent: string, now: int)
    ensures var sortedEdu := d.(education := SortEducation(d.education));
      Render(Some(sortedEdu), templateId, accent, now) == Render(Some(d), templateId, accent, now)
    ensures templateId != Some("minimal") ==>
      var sorted := d.(experience := SortExperience(d.experience, now), education := SortEducation(d.education));
      Render(Some(sorted), templateId, accent, now) == Render(Some(d), templateId, accent, now)
  {
    SortExperienceIdempotent(d.experience, now);
    SortEducationIdempotent(d.education);
    var exp := SortExperience(d.experience, now);
    var edu := SortEducation(d.education);
    match templateId
    case Some("modern") =>
      TemplateB.SameOrderSameView(d, d.experience, edu, accent, now);
      TemplateB.SameOrderSameView(d, exp, edu, accent, now);
    case Some("minimalImage") =>
      TemplateC.SameOrderSameView(d, d.experience, edu, accent, now);
      TemplateC.SameOrderSameView(d, exp, edu, accent, now);
    case Some("minimal") =>
      TemplateD.SameEducationOrderSameView(d, edu, accent);
    case _ =>
      TemplateA.SameOrderSameView(d, d.experience, edu, accent, now);
      TemplateA.SameOrderSameView(d, exp, edu, accent, now);
  }
}
