/** The two prompts sent to the language model: the system prompt built
    from the chosen template and the optional extra instructions, and the
    user prompt quoting the raw content. */
module OpenAIPrompts {
  import opened Wrappers
  import opened Strings

  datatype TemplateInfo = TemplateInfo(name: string, description: string, prompt: string, platform: string)

  /** `ContentProcessingRequest`; `additionalInstructions` may be omitted. */
  datatype Request = Request(rawContent: string, template: TemplateInfo, additionalInstructions: Option<string>)

  // The fixed parts of the two prompts, one line per piece.
  const SystemIntro :=
    "You are a professional social media content creator. "
    + "Your task is to transform raw content into platform-optimized posts for LinkedIn and Twitter.\n"
    + "\n"
    + "TEMPLATE INFORMATION:\n"
  const NameLabel := "- Name: "
  const DescriptionLabel := "\n- Description: "
  const PlatformLabel := "\n- Platform Focus: "
  const InstructionsLabel := "\n- Template Instructions: "
  const AdditionalLabel := "\n\nADDITIONAL INSTRUCTIONS:\n"
  const SystemRequirements :=
    "\n\nPLATFORM REQUIREMENTS:\n"
    + "LinkedIn:\n"
    + "- Professional tone\n"
    + "- Can be longer (up to 3000 characters)\n"
    + "- Encourage engagement\n"
    + "- Professional formatting with line breaks\n"
    + "- NO hashtags\n\n"
    + "Twitter:\n"
    + "- Concise and engaging\n"
    + "- Maximum 280 characters\n"
    + "- Clear call-to-action when appropriate\n"
    + "- Thread-friendly if content is complex\n"
    + "- NO hashtags\n\n"
    + "Please return ONLY a valid JSON object with this exact structure:\n"
    + "{\n"
    + "  \"linkedin\": \"LinkedIn optimized content here\",\n"
    + "  \"twitter\": \"Twitter optimized content here\"\n"
    + "}"
  const UserIntro := "Raw content to transform: "
  const UserInstructions :=
    "\n\n"
    + "Please apply the template instructions and create optimized versions for both LinkedIn and Twitter. "
    + "Ensure the content maintains the original message while being platform-appropriate. "
    + "Do not include any hashtags in the output."

  function SystemPrompt(t: TemplateInfo, additional: string): string {
    SystemIntro + (NameLabel + t.name) + (DescriptionLabel + t.description) + (PlatformLabel + t.platform)
      + (InstructionsLabel + t.prompt) + (AdditionalLabel + additional) + SystemRequirements
  }

  function UserPrompt(rawContent: string): string {
    UserIntro + "\"" + rawContent + "\"" + UserInstructions
  }

  /** The instructions actually embedded: omitted ones become "". */
  function AdditionalInstructions(req: Request): (r: string)
    ensures req.additionalInstructions.None? ==> r == []
    ensures req.additionalInstructions.Some? ==> r == req.additionalInstructions.value
  {
    req.additionalInstructions.GetOr([])
  }

  /** The system prompt carries every template field after its label, and
      the additional instructions. */
  lemma SystemPromptEmbedsTemplate(t: TemplateInfo, additional: string)
    ensures Contains(SystemPrompt(t, additional), NameLabel + t.name)
    ensures Contains(SystemPrompt(t, additional), DescriptionLabel + t.description)
    ensures Contains(SystemPrompt(t, additional), PlatformLabel + t.platform)
    ensures Contains(SystemPrompt(t, additional), InstructionsLabel + t.prompt)
    ensures Contains(SystemPrompt(t, additional), AdditionalLabel + additional)
  {
    InnerPartsOccur(SystemIntro, NameLabel + t.name, DescriptionLabel + t.description,
      PlatformLabel + t.platform, InstructionsLabel + t.prompt, AdditionalLabel + additional,
      SystemRequirements);
  }

  /** Each of the five inner parts of a seven-part concatenation occurs in it. */
  lemma InnerPartsOccur(a: string, b: string, c: string, d: string, e: string, f: string, g: string)
    ensures var s := a + b + c + d + e + f + g;
      Contains(s, b) && Contains(s, c) && Contains(s, d) && Contains(s, e) && Contains(s, f)
  {
    var s := a + b + c + d + e + f + g;
    assert s == a + b + (c + d + e + f + g);
    ContainsMiddle(a, b, c + d + e + f + g);
    assert s == (a + b) + c + (d + e + f + g);
    ContainsMiddle(a + b, c, d + e + f + g);
    assert s == (a + b + c) + d + (e + f + g);
    ContainsMiddle(a + b + c, d, e + f + g);
    assert s == (a + b + c + d) + e + (f + g);
    ContainsMiddle(a + b + c + d, e, f + g);
    ContainsMiddle(a + b + c + d + e, f, g);
  }

  /** The user prompt carries the raw content between double quotes. */
  lemma UserPromptQuotesContent(rawContent: string)
    ensures Contains(UserPrompt(rawContent), "\"" + rawContent + "\"")
  {
    QuotedOccurs(UserIntro, rawContent, UserInstructions);
  }

  /** A quoted part between two others occurs in the whole. */
  lemma QuotedOccurs(a: string, x: string, b: string)
    ensures Contains(a + "\"" + x + "\"" + b, "\"" + x + "\"")
  {
    assert a + "\"" + x + "\"" + b == a + ("\"" + x + "\"") + b;
    ContainsMiddle(a, "\"" + x + "\"", b);
  }

  /** The system and user messages sent to the model. */
  datatype Prompts = Prompts(system: string, user: string)

  /** The two prompts `processContentWithOpenAI` builds from its request. */
  function BuildPrompts(req: Request): Prompts {
    Prompts(SystemPrompt(req.template, AdditionalInstructions(req)), UserPrompt(req.rawContent))
  }

}
