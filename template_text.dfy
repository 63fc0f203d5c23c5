/** The fixed texts of the template service: its error messages, the
    template names that select a formatting rule, and the texts each rule
    puts around the content. */
module TemplateText {
  const NotOwnedMessage := "Template not found or not owned by user"
  const NotFoundMessage := "Template not found"

  // Template names that select a formatting rule; any other name gets the
  // plain rule.
  const ProfessionalAnnouncement := "Professional Announcement"
  const EngagementQuestion := "Engagement Question"
  const QuickTip := "Quick Tip"
  const TrendingTopic := "Trending Topic Commentary"

  // The fixed texts each rule puts before and after the content.
  const AnnouncementLinkedInHead := "I'm excited to announce: "
  const AnnouncementLinkedInTail := "\n\n#ProfessionalAnnouncement #Career"
  const AnnouncementTwitterHead := "Announcement: "
  const AnnouncementTwitterTail := "\n\n#Announcement"
  const EngagementLinkedInTail := "\n\nWhat are your thoughts on this? Let me know in the comments below.\n\n#Engagement #Discussion"
  const EngagementTwitterTail := "\n\nWhat do you think? Reply with your thoughts!"
  const QuickTipLinkedInHead := "Quick tip for professionals:\n\n"
  const QuickTipLinkedInTail := "\n\n#QuickTip #ProfessionalAdvice"
  const QuickTipTwitterHead := "Pro tip: "
  const QuickTipTwitterTail := "\n\n#QuickTip"
  const TrendingLinkedInHead := "My take on this trending topic:\n\n"
  const TrendingLinkedInTail := "\n\n#TrendingTopic #MyPerspective"
  const TrendingTwitterHead := "Hot take: "
  const TrendingTwitterTail := "\n\n#Trending"
}
