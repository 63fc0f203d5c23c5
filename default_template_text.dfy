/** The descriptions and prompts of the three built-in templates of the
    template picker, one line per piece. */
module DefaultTemplateText {
  const ProfessionalDescription :=
    "Transform content into professional format "
    + "suitable for LinkedIn"
  const ProfessionalPrompt :=
    "Transform this content into a professional post. "
    + "Use formal language, clear structure, "
    + "and maintain business-appropriate tone."
  const CasualDescription :=
    "Create engaging, conversational content "
    + "for social media"
  const CasualPrompt :=
    "Rewrite this content in a casual, engaging tone. "
    + "Make it conversational and relatable "
    + "while keeping the core message."
  const QuestionDescription :=
    "End posts with questions "
    + "to drive audience engagement"
  const QuestionPrompt :=
    "Transform this content to end with an engaging question "
    + "that encourages audience participation and discussion."
}
