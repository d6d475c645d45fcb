/** `ChatMessage`: how one message of the single-query conversation is
    drawn. A user message is a plain bubble; a bot message shows a raw
    line, an intent badge, a confidence bar and entity chips, each only
    under its own condition. */
module ChatMessage {
  import opened Common

  datatype Role = User | Bot

  /** A message of the conversation. `None` is an absent (`undefined`)
      optional field; the `id` the tab stamps from the clock is not
      modelled. */
  datatype Message = Message(
    role: Role,
    content: string,
    intent: Option<string>,
    confidence: Option<real>,
    entities: Option<map<string, string>>)

  /** The confidence bar: its fill fraction and its colour class. */
  datatype Bar = Bar(fill: real, colour: string)

  /** What is drawn for a message. */
  datatype Bubble =
    | UserBubble(text: string)
    | BotBubble(raw: Option<string>, intent: Option<string>, confidence: Option<Bar>, entities: Option<map<string, string>>)

  /** The bar's colour: green from 0.8, amber from 0.5, red below. */
  function BarColour(confidence: real): (c: string)
    ensures c == "bg-success" <==> BandOf(confidence) == Good
    ensures c == "bg-warning" <==> BandOf(confidence) == Moderate
    ensures c == "bg-destructive" <==> BandOf(confidence) == Poor
  {
    "bg-" + Hue(BandOf(confidence))
  }

  /** The bubble for a message: a user's shows only its text; a bot's shows
      the raw line only with `showRaw`, the intent only when it is a
      non-empty string, the confidence whenever it is defined (0 included)
      and the entities only when there is at least one. */
  function Render(m: Message, showRaw: bool): (b: Bubble)
    ensures b.UserBubble? <==> m.role == User
    ensures b.UserBubble? ==> b.text == m.content
    ensures b.BotBubble? ==> (b.raw.Some? <==> showRaw) && (b.raw.Some? ==> b.raw.value == m.content)
    ensures b.BotBubble? ==> (b.intent.Some? <==> Truthy(m.intent)) && (b.intent.Some? ==> b.intent == m.intent)
    ensures b.BotBubble? ==> (b.confidence.Some? <==> m.confidence.Some?)
    ensures b.BotBubble? && b.confidence.Some? ==>
              b.confidence.value == Bar(m.confidence.value, BarColour(m.confidence.value))
    ensures b.BotBubble? ==> (b.entities.Some? <==> m.entities.Some? && |m.entities.value| > 0)
    ensures b.BotBubble? && b.entities.Some? ==> b.entities == m.entities
  {
    match m.role
    case User => UserBubble(m.content)
    case Bot =>
      BotBubble(
        if showRaw then Some(m.content) else None,
        if Truthy(m.intent) then m.intent else None,
        if m.confidence.Some? then Some(Bar(m.confidence.value, BarColour(m.confidence.value))) else None,
        if m.entities.Some? && |m.entities.value| > 0 then m.entities else None)
  }

  /** Whatever fields a user message carries, nothing but its text is drawn. */
  lemma UserShowsOnlyContent(m: Message, showRaw: bool)
    requires m.role == User
    ensures Render(m, showRaw) == Render(Message(User, m.content, None, None, None), false)
  {
  }

  /** A bot message with an empty intent and no entities still shows a
      zero confidence, as a red bar. */
  lemma ZeroConfidenceShown(content: string, showRaw: bool)
    ensures Render(Message(Bot, content, Some(""), Some(0.0), Some(map[])), showRaw)
            == BotBubble(if showRaw then Some(content) else None, None, Some(Bar(0.0, "bg-destructive")), None)
  {
  }
}
