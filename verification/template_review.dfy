/**
 Which template component renders a résumé
 (src/components/templates/TemplateReview.tsx): the form values' template id,
 or "classic" when it is missing or empty, chooses one of eight components,
 with the classic one for an id it does not know; the catalogue style of the
 id is handed to the component, and nothing for an unknown id. The
 components themselves are the display rules of the `Display` module.
 */
module TemplatePreviews {
  import opened Common
  import opened Templates
  import opened FormValues
  import opened Resumes

  /** The eight template components. */
  datatype TemplateComponent = ClassicTemplate | ModernTemplate | MinimalTemplate | CreativeTemplate
                             | ProfessionalTemplate | CompactTemplate | ElegantTemplate | TechTemplate

  /** The catalogue id each component is registered under. */
  function ComponentId(c: TemplateComponent): (id: string)
    ensures id in TemplateKeys
  {
    match c
    case ClassicTemplate => "classic"
    case ModernTemplate => "modern"
    case MinimalTemplate => "minimal"
    case CreativeTemplate => "creative"
    case ProfessionalTemplate => "professional"
    case CompactTemplate => "compact"
    case ElegantTemplate => "elegant"
    case TechTemplate => "tech"
  }

  /** The component map with its `|| ClassicTemplate` fallback. */
  function ComponentFor(id: string): (c: TemplateComponent)
    ensures id in TemplateKeys ==> ComponentId(c) == id
    ensures id !in TemplateKeys ==> c == ClassicTemplate
  {
    if id == "modern" then ModernTemplate
    else if id == "minimal" then MinimalTemplate
    else if id == "creative" then CreativeTemplate
    else if id == "professional" then ProfessionalTemplate
    else if id == "compact" then CompactTemplate
    else if id == "elegant" then ElegantTemplate
    else if id == "tech" then TechTemplate
    else ClassicTemplate
  }

  /** Registering components under ids loses nothing: the component
      registered under a component's id is that component. */
  lemma ComponentIdsInjective(c: TemplateComponent)
    ensures ComponentFor(ComponentId(c)) == c
  {
  }

  /** The id the preview resolves: `resumeData.templateId || DEFAULT_TEMPLATE_ID`. */
  function ResolvedId(values: ResumeValues): (id: string)
    ensures Truthy(values.templateId) ==> Some(id) == values.templateId
    ensures !Truthy(values.templateId) ==> id == "classic"
    ensures id != ""
  {
    OrElse(values.templateId, DefaultTemplateId)
  }

  /** What `TemplatePreview` renders: a component and the style it is given. */
  datatype Preview = Preview(component: TemplateComponent, style: Option<TemplateStyle>)

  /** `TemplatePreview({resumeData})`. */
  function TemplatePreview(values: ResumeValues): (p: Preview)
    ensures ResolvedId(values) in TemplateKeys ==> (ComponentId(p.component) == ResolvedId(values)
                                                    && p.style == Some(TemplateTable[ResolvedId(values)].style))
    ensures ResolvedId(values) !in TemplateKeys ==> p == Preview(ClassicTemplate, None)
    ensures !Truthy(values.templateId) ==> p.component == ClassicTemplate
  {
    var id := ResolvedId(values);
    var template := GetTemplateById(id);
    TableKeyedById();
    Preview(ComponentFor(id), match template case Some(t) => Some(t.style) case None => None)
  }

  /** The component and the style always belong to the same catalogue entry
      when the id is known. */
  lemma PreviewStyleMatchesComponent(values: ResumeValues)
    requires ResolvedId(values) in TemplateKeys
    ensures TemplatePreview(values).style == Some(TemplateTable[ComponentId(TemplatePreview(values).component)].style)
  {
  }

  /** The résumé list previews each stored résumé through the mapping as
      written; since that mapping drops the template id, every card shows the
      classic template, whatever template the résumé was saved with. */
  lemma ListPreviewIgnoresSavedTemplate(resume: Resume, id: string)
    ensures MapToResumeValuesAsWritten(ServerDataOf(resume, id)).Ok?
    ensures TemplatePreview(MapToResumeValuesAsWritten(ServerDataOf(resume, id)).value).component == ClassicTemplate
  {
    StoredResumeMaps(resume, id);
  }

  /** A concrete case: a résumé saved with the modern template is previewed
      in the list with the classic one. */
  lemma ModernResumeListedAsClassic(resume: Resume, id: string)
    requires resume.templateId == "modern"
    ensures TemplatePreview(MapToResumeValuesAsWritten(ServerDataOf(resume, id)).value).component != ComponentFor(resume.templateId)
  {
    ListPreviewIgnoresSavedTemplate(resume, id);
  }

  /** With the template id carried through, the list previews every stored
      résumé with the template it was saved with, in that template's style. */
  lemma ListPreviewUsesSavedTemplate(resume: Resume, id: string)
    requires Stored(resume)
    ensures MapToResumeValues(ServerDataOf(resume, id)).Ok?
    ensures ComponentId(TemplatePreview(MapToResumeValues(ServerDataOf(resume, id)).value).component) == resume.templateId
    ensures TemplatePreview(MapToResumeValues(ServerDataOf(resume, id)).value).style == Some(TemplateTable[resume.templateId].style)
  {
    StoredResumeMaps(resume, id);
    var values := MapToResumeValues(ServerDataOf(resume, id)).value;
    PreviewOfKnownId(values, resume.templateId);
  }

  /** Form values naming a catalogue template are previewed with that
      template's component and style. */
  lemma PreviewOfKnownId(values: ResumeValues, templateId: string)
    requires values.templateId == Some(templateId) && templateId in TemplateKeys
    ensures ComponentId(TemplatePreview(values).component) == templateId
    ensures TemplatePreview(values).style == Some(TemplateTable[templateId].style)
  {
  }
}
