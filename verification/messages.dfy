/**
  The message model of the typed bot: Telegram identifiers, the kinds of
  content the transport delivers, and handlers treated as opaque values.
*/
module Messages {
  import opened Wrappers

  /** A Telegram chat or user id: a number or a string, compared by value. */
  datatype Identifier = NumId(n: int) | StrId(s: string)

  /** The non-text kinds of incoming message, one per key of `TelegramEvent`. */
  datatype EventKind =
    | Sticker | Photo | Audio | Video | Document | Contact | Location
    | NewChatParticipant | LeftChatParticipant | NewChatTitle | NewChatPhoto
    | DeleteChatPhoto | GroupChatCreated

  /** The name under which the transport fires text messages. */
  const TextEvent: string := "text"

  /** The key set of `TelegramEvent`: every event name an event handler may be registered for. */
  const TelegramEvent: set<string> :=
    { "sticker", "photo", "audio", "video", "document", "contact", "location",
      "new_chat_participant", "left_chat_participant", "new_chat_title",
      "new_chat_photo", "delete_chat_photo", "group_chat_created" }

  /** The event name the transport fires for a message of kind `k`. */
  function EventName(k: EventKind): (name: string)
    ensures name in TelegramEvent
    ensures name != TextEvent
  {
    match k
    case Sticker => "sticker"
    case Photo => "photo"
    case Audio => "audio"
    case Video => "video"
    case Document => "document"
    case Contact => "contact"
    case Location => "location"
    case NewChatParticipant => "new_chat_participant"
    case LeftChatParticipant => "left_chat_participant"
    case NewChatTitle => "new_chat_title"
    case NewChatPhoto => "new_chat_photo"
    case DeleteChatPhoto => "delete_chat_photo"
    case GroupChatCreated => "group_chat_created"
  }

  /** The kind an event name stands for, if it is one of `TelegramEvent`. */
  function EventKindOf(name: string): (k: Option<EventKind>)
    ensures k.Some? <==> name in TelegramEvent
    ensures k.Some? ==> EventName(k.value) == name
  {
    if name == "sticker" then Some(Sticker)
    else if name == "photo" then Some(Photo)
    else if name == "audio" then Some(Audio)
    else if name == "video" then Some(Video)
    else if name == "document" then Some(Document)
    else if name == "contact" then Some(Contact)
    else if name == "location" then Some(Location)
    else if name == "new_chat_participant" then Some(NewChatParticipant)
    else if name == "left_chat_participant" then Some(LeftChatParticipant)
    else if name == "new_chat_title" then Some(NewChatTitle)
    else if name == "new_chat_photo" then Some(NewChatPhoto)
    else if name == "delete_chat_photo" then Some(DeleteChatPhoto)
    else if name == "group_chat_created" then Some(GroupChatCreated)
    else None
  }

  /** Event names and kinds are in one-to-one correspondence. */
  lemma EventNameRoundTrip(k: EventKind)
    ensures EventKindOf(EventName(k)) == Some(k)
  {
  }

  /** `'text'` is not a `TelegramEvent`, so no event name stands for a text message. */
  lemma TextIsNotAnEvent()
    ensures TextEvent !in TelegramEvent
    ensures EventKindOf(TextEvent) == None
  {
  }

  /** What a message carries: text, or one of the event kinds. */
  datatype Content = Text(body: string) | Event(kind: EventKind)

  /** An incoming message, reduced to what routing looks at. */
  datatype Message = Message(chatId: Identifier, fromId: Identifier, content: Content)

  /** The name of the transport event that delivers `m`. */
  function EventOf(m: Message): (name: string)
    ensures name == TextEvent <==> m.content.Text?
    ensures m.content.Event? ==> EventKindOf(name) == Some(m.content.kind)
  {
    match m.content
    case Text(_) => TextEvent
    case Event(k) => EventName(k)
  }

  /** A registered handler, `(msg: Message) => Promise<Message>`, known only by identity. */
  datatype Action = Action(id: nat)

  /** A handler applied to a message: the promise an action returns. */
  datatype Invocation = Invocation(action: Action, msg: Message)

  /** The command notation: commands are texts starting with this character. */
  const CommandPrefix: char := '/'

  predicate IsCommandText(text: string) {
    |text| > 0 && text[0] == CommandPrefix
  }

  /** A text message written in command notation. */
  predicate IsCommandMessage(m: Message) {
    m.content.Text? && IsCommandText(m.content.body)
  }

  /** A text message without command notation. */
  predicate IsPlainTextMessage(m: Message) {
    m.content.Text? && !IsCommandText(m.content.body)
  }
}
