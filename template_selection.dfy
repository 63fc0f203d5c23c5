/** The template picker hook: the templates fetched from the server, with a
    fall-back to three built-in templates when the fetch fails, the chosen
    template id, and the name shown for it. The fetch itself is not
    modelled: its outcome is an input. */
module TemplateSelection {
  import opened Wrappers
  import opened DefaultTemplateText

  /** A template as the client receives it; the dates are ISO strings. */
  datatype Template = Template(
    id: string, name: string, description: string, platform: string,
    prompt: string, createdAt: string, updatedAt: string)

  const FallbackError := "Database unavailable. " + "Using default templates as fallback."
  const Placeholder := "Select Template"

  /** `DEFAULT_TEMPLATES`. `now` is the ISO time at which the list was
      built; it stamps both dates of every entry. */
  function DefaultTemplates(now: string): seq<Template> {
    [ Template("default-professional", "Professional Post",
        ProfessionalDescription, "linkedin", ProfessionalPrompt, now, now),
      Template("default-casual", "Casual Post",
        CasualDescription, "all", CasualPrompt, now, now),
      Template("default-question", "Engagement Question",
        QuestionDescription, "all", QuestionPrompt, now, now) ]
  }

  /** `templates.find(t => t.id === id)`, by position: the first template
      with that id, or None when there is none. */
  function FirstWithId(templates: seq<Template>, id: string): (r: Option<nat>)
    ensures r.None? <==> forall i :: 0 <= i < |templates| ==> templates[i].id != id
    ensures r.Some? ==> r.value < |templates| && templates[r.value].id == id
    ensures r.Some? ==> forall j :: 0 <= j < r.value ==> templates[j].id != id
  {
    if templates == [] then None
    else if templates[0].id == id then Some(0)
    else
      match FirstWithId(templates[1..], id)
      case None => None
      case Some(k) => Some(k + 1)
  }

  /** `getSelectedTemplateName()` on the given state: the placeholder when
      no id is selected (null or "") or no template has it, and otherwise
      the name of the first template with that id. */
  function SelectedName(templates: seq<Template>, selected: Option<string>): (r: string)
    ensures selected.None? || selected.value == [] ==> r == Placeholder
    ensures selected.Some? && (forall i :: 0 <= i < |templates| ==> templates[i].id != selected.value) ==>
      r == Placeholder
  {
    if selected.None? || selected.value == [] then Placeholder
    else
      match FirstWithId(templates, selected.value)
      case None => Placeholder
      case Some(i) => templates[i].name
  }

  /** A selected id that some template carries shows the name of the first
      such template. */
  lemma SelectedNameIsFirstMatch(templates: seq<Template>, id: string, i: nat)
    requires id != [] && i < |templates| && templates[i].id == id
    requires forall j :: 0 <= j < i ==> templates[j].id != id
    ensures SelectedName(templates, Some(id)) == templates[i].name
  {
    var r := FirstWithId(templates, id);
    assert r.Some?;
    assert !(r.value < i) && !(r.value > i);
  }

  /** After a failed fetch, each built-in template can be chosen and shows
      its own name, and an unknown id shows the placeholder. */
  lemma FallbackOffersDefaults(now: string, other: string)
    requires other != "default-professional" && other != "default-casual" && other != "default-question"
    ensures SelectedName(DefaultTemplates(now), Some("default-professional")) == "Professional Post"
    ensures SelectedName(DefaultTemplates(now), Some("default-casual")) == "Casual Post"
    ensures SelectedName(DefaultTemplates(now), Some("default-question")) == "Engagement Question"
    ensures SelectedName(DefaultTemplates(now), Some(other)) == Placeholder
  {
    var d := DefaultTemplates(now);
    assert d[0].id == "default-professional" && d[1].id == "default-casual" && d[2].id == "default-question";
    SelectedNameIsFirstMatch(d, "default-professional", 0);
    SelectedNameIsFirstMatch(d, "default-casual", 1);
    SelectedNameIsFirstMatch(d, "default-question", 2);
  }

  /** `useTemplateSelection()`: the hook's four pieces of state. */
  class Selector {
    var templates: seq<Template>
    var selectedTemplate: Option<string>
    var isLoading: bool
    var error: Option<string>
    /** When `DEFAULT_TEMPLATES` was built. */
    const now: string

    /** The state before the first fetch ends: no templates, nothing
        selected, loading, no error. */
    constructor (now: string)
      ensures templates == [] && selectedTemplate == None && isLoading && error == None
      ensures this.now == now
    {
      templates := [];
      selectedTemplate := None;
      isLoading := true;
      error := None;
      this.now := now;
    }

    /** The `fetchTemplates` effect. `outcome` is what `getTemplates()`
        resolved to, or the error it threw. */
    method FetchTemplates(outcome: Result<seq<Template>, string>)
      modifies this
      ensures outcome.Ok? ==> templates == outcome.value && error == None
      ensures outcome.Err? ==> templates == DefaultTemplates(now) && error == Some(FallbackError)
      ensures !isLoading && selectedTemplate == old(selectedTemplate)
    {
      error := None;
      if outcome.Ok? {
        templates := outcome.value;
      } else {
        error := Some(FallbackError);
        templates := DefaultTemplates(now);
      }
      isLoading := false;
    }

    /** `retryFetch()`: loading again with the error cleared, then the same
        outcomes as the first fetch. */
    method RetryFetch(outcome: Result<seq<Template>, string>)
      modifies this
      ensures outcome.Ok? ==> templates == outcome.value && error == None
      ensures outcome.Err? ==> templates == DefaultTemplates(now) && error == Some(FallbackError)
      ensures !isLoading && selectedTemplate == old(selectedTemplate)
    {
      isLoading := true;
      error := None;
      if outcome.Ok? {
        templates := outcome.value;
      } else {
        error := Some(FallbackError);
        templates := DefaultTemplates(now);
      }
      isLoading := false;
    }

    method SetSelectedTemplate(id: Option<string>)
      modifies this
      ensures selectedTemplate == id
      ensures templates == old(templates) && isLoading == old(isLoading) && error == old(error)
    {
      selectedTemplate := id;
    }

    /** `getSelectedTemplateName()`. */
    function GetSelectedTemplateName(): string
      reads this
    {
      SelectedName(templates, selectedTemplate)
    }
  }
}
