/**
 * The record types of the conversation log: one turn is a sender and the
 * text that sender wrote; a history is the turns in conversational order.
 */
module ConversationHistoryModel {
  import opened Wrappers

  /** The two participants a turn can come from. */
  datatype Sender = User | AIBot

  /** The string literal that stands for a sender in the log. */
  function SenderName(s: Sender): (r: string)
    ensures r == "user" || r == "AI-bot"
    ensures |r| > 0 && '\n' !in r
  {
    match s
    case User => "user"
    case AIBot => "AI-bot"
  }

  /**
   * Membership in the sender type: a string is a sender exactly when it is
   * one of the two literals of the union type.
   */
  function ParseSender(t: string): (r: Option<Sender>)
    ensures r.Some? <==> (t == "user" || t == "AI-bot")
  {
    if t == "user" then Some(User)
    else if t == "AI-bot" then Some(AIBot)
    else None
  }

  /** One turn of the conversation. */
  datatype ConversationMessage = ConversationMessage(sender: Sender, message: string)

  /** The whole log, oldest turn first. */
  type ConversationHistory = seq<ConversationMessage>

  /** Each sender is written as a literal that reads back as that sender. */
  lemma SenderRoundTrip(s: Sender)
    ensures ParseSender(SenderName(s)) == Some(s)
  {
  }

  /** A string that reads as a sender is that sender's literal, so names are distinct. */
  lemma ParseSenderExact(t: string)
    ensures ParseSender(t).Some? ==> SenderName(ParseSender(t).value) == t
  {
  }
}
