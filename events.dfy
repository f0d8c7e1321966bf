/** The Events API values the routers receive (the slackevents types they use). */
module Events {

  /** Inner event type tags, as the slackevents library spells them. */
  const AppMention := "app_mention"
  const ReactionAdded := "reaction_added"

  /** Mention payload: who mentioned the bot, where, and the message text. */
  datatype AppMentionEvent = AppMentionEvent(user: string, channel: string, text: string)

  /** Reaction payload: who reacted, with which emoji, on whose message. */
  datatype ReactionAddedEvent = ReactionAddedEvent(user: string, reaction: string, itemUser: string)

  /** The runtime type of `InnerEvent.Data`, which the type tag does not guarantee. */
  datatype InnerData =
    | MentionData(mentionEvent: AppMentionEvent)
    | ReactionData(reactionEvent: ReactionAddedEvent)
    | UnknownData

  datatype InnerEvent = InnerEvent(kind: string, data: InnerData)

  /** `EventsAPIEvent`: the outer type tag and the inner event. */
  datatype EventsAPIEvent = EventsAPIEvent(kind: string, inner: InnerEvent)
}
