/** The editor hook: the raw content typed by the user, the formatted text
    for each platform, and whether a generation is in progress. The call to
    the format endpoint is not modelled: its outcome is an input. */
module ContentEditor {
  import opened Wrappers
  import opened Strings

  /** The generated text for the two platforms. */
  datatype FormattedContent = FormattedContent(linkedin: string, twitter: string)

  /** A key of `FormattedContent`. */
  datatype Platform = LinkedIn | Twitter

  const Empty := FormattedContent([], [])

  /** The text of one platform. */
  function TextOf(f: FormattedContent, p: Platform): string {
    match p
    case LinkedIn => f.linkedin
    case Twitter => f.twitter
  }

  /** `{ ...prev, [platform]: content }`: one platform's text replaced. */
  function WithText(f: FormattedContent, p: Platform, content: string): (r: FormattedContent)
    ensures TextOf(r, p) == content
    ensures forall q: Platform :: q != p ==> TextOf(r, q) == TextOf(f, q)
  {
    match p
    case LinkedIn => f.(linkedin := content)
    case Twitter => f.(twitter := content)
  }

  /** `Boolean(linkedin || twitter)`: a string is truthy when it is not empty. */
  predicate HasText(f: FormattedContent) {
    f.linkedin != [] || f.twitter != []
  }

  /** The guard of `generateContent`: `rawContent.trim()` and the selected
      template id are both truthy. */
  predicate CanGenerate(rawContent: string, selectedTemplate: Option<string>) {
    Trim(rawContent) != [] && selectedTemplate.Some? && selectedTemplate.value != []
  }

  /** Generation is refused exactly when the content is blank (white space
      and line terminators only, or nothing) or no template id is given. */
  lemma CanGenerateIff(rawContent: string, selectedTemplate: Option<string>)
    ensures CanGenerate(rawContent, selectedTemplate) <==>
      !IsBlank(rawContent) && selectedTemplate.Some? && selectedTemplate.value != []
  {
    TrimEmptyIffBlank(rawContent);
  }

  /** Writing a non-empty text makes the content count as generated; writing
      an empty one leaves that to the other platform. */
  lemma HasTextAfterWrite(f: FormattedContent, p: Platform, content: string)
    ensures HasText(WithText(f, p, content)) <==>
      content != [] || TextOf(f, if p == LinkedIn then Twitter else LinkedIn) != []
  {
    var q := if p == LinkedIn then Twitter else LinkedIn;
    assert TextOf(WithText(f, p, content), q) == TextOf(f, q);
  }

  /** `useContentEditor()`: the hook's three pieces of state. */
  class Editor {
    var rawContent: string
    var formattedContent: FormattedContent
    var isGenerating: bool

    /** The initial state: nothing typed, nothing generated, idle. */
    constructor ()
      ensures rawContent == [] && formattedContent == Empty && !isGenerating
      ensures !HasGeneratedContent()
    {
      rawContent := [];
      formattedContent := Empty;
      isGenerating := false;
    }

    method SetRawContent(content: string)
      modifies this
      ensures rawContent == content
      ensures formattedContent == old(formattedContent) && isGenerating == old(isGenerating)
    {
      rawContent := content;
    }

    method SetFormattedContent(f: FormattedContent)
      modifies this
      ensures formattedContent == f
      ensures rawContent == old(rawContent) && isGenerating == old(isGenerating)
    {
      formattedContent := f;
    }

    /** `generateContent(selectedTemplate)`. `format` is `formatContent` of
        the format endpoint on the raw content and the template id: the
        formatted pair, or the error it throws. The result is `undefined`
        (None) when the guard refuses, and otherwise whether formatting
        succeeded. */
    method GenerateContent(
      selectedTemplate: Option<string>,
      format: (string, string) -> Result<FormattedContent, string>)
      returns (r: Option<bool>)
      modifies this
      ensures !CanGenerate(old(rawContent), selectedTemplate) ==>
        r == None && unchanged(this)
      ensures CanGenerate(old(rawContent), selectedTemplate) ==>
        var outcome := format(old(rawContent), selectedTemplate.value);
        && r == Some(outcome.Ok?)
        && rawContent == old(rawContent)
        && !isGenerating
        && formattedContent == (if outcome.Ok? then outcome.value else old(formattedContent))
        && (HasGeneratedContent() <==>
              if outcome.Ok? then outcome.value.linkedin != [] || outcome.value.twitter != []
              else old(HasGeneratedContent()))
    {
      if Trim(rawContent) == [] || selectedTemplate.None? || selectedTemplate.value == [] {
        return None;
      }
      isGenerating := true;
      var formatted := format(rawContent, selectedTemplate.value);
      if formatted.Ok? {
        formattedContent := FormattedContent(formatted.value.linkedin, formatted.value.twitter);
        r := Some(true);
      } else {
        r := Some(false);
      }
      isGenerating := false;
    }

    /** `updateFormattedContent(platform, content)`. */
    method UpdateFormattedContent(p: Platform, content: string)
      modifies this
      ensures formattedContent == WithText(old(formattedContent), p, content)
      ensures rawContent == old(rawContent) && isGenerating == old(isGenerating)
      ensures HasGeneratedContent() <==>
        content != [] || TextOf(old(formattedContent), if p == LinkedIn then Twitter else LinkedIn) != []
    {
      HasTextAfterWrite(formattedContent, p, content);
      formattedContent := WithText(formattedContent, p, content);
    }

    /** `hasGeneratedContent()`. */
    predicate HasGeneratedContent()
      reads this
    {
      HasText(formattedContent)
    }
  }
}
