/**
  The dispatcher: the chain `receivedMessage` -> `receivedResponseMessage` |
  `receivedNonResponseMessage` -> `receivedText` -> `receivedCommand` |
  `receivedPlainText`, which decides the single route an incoming message takes.

  How the command token is cut out of a command text is not part of the
  model: it is the parameter `commandOf`, consulted only for texts in command
  notation.
*/
module Dispatcher {
  import opened Wrappers
  import opened Messages
  import opened Tickets
  import opened Registry
  import opened TypedBot

  /** The one handler an incoming message reaches. */
  datatype Route =
    | Resolved(ticket: Ticket, resolver: Resolver, msg: Message)
    | RanCommand(action: Action, msg: Message)
    | RanMissing(action: Action, msg: Message)
    | RanPlainText(action: Action, msg: Message)
    | RanEvent(action: Action, msg: Message)
    | Dropped

  /** The state after a message is routed, and its route. */
  datatype Dispatch = Dispatch(bot: Bot, route: Route)

  /** `receivedCommand`: a registered command runs; otherwise `missingAction` runs if set. */
  function ReceivedCommand(b: Bot, command: string, msg: Message): (r: Route)
    ensures r.RanCommand? <==> command in b.commands
    ensures r.RanMissing? <==> command !in b.commands && b.missingAction.Some?
    ensures r.Dropped? <==> command !in b.commands && b.missingAction.None?
    ensures r.RanCommand? ==> r.action == b.commands[command]
    ensures r.RanMissing? ==> r.action == b.missingAction.value
    ensures !r.Dropped? ==> r.msg == msg
  {
    if command in b.commands then RanCommand(b.commands[command], msg)
    else match b.missingAction
      case Some(a) => RanMissing(a, msg)
      case None => Dropped
  }

  /** `receivedPlainText`: `plainTextAction` runs if set. */
  function ReceivedPlainText(b: Bot, text: string, msg: Message): (r: Route)
    ensures r.RanPlainText? <==> b.plainTextAction.Some?
    ensures r.Dropped? <==> b.plainTextAction.None?
    ensures r.RanPlainText? ==> r.action == b.plainTextAction.value && r.msg == msg
  {
    match b.plainTextAction
    case Some(a) => RanPlainText(a, msg)
    case None => Dropped
  }

  /** `receivedText`: command notation goes to the command route, anything else to the plain-text route. */
  function ReceivedText(b: Bot, msg: Message, commandOf: string -> string): (r: Route)
    requires msg.content.Text?
    ensures r.RanPlainText? <==> !IsCommandText(msg.content.body) && b.plainTextAction.Some?
    ensures r.RanCommand? <==> IsCommandText(msg.content.body) && commandOf(msg.content.body) in b.commands
    ensures r.RanMissing? <==>
      IsCommandText(msg.content.body) && commandOf(msg.content.body) !in b.commands && b.missingAction.Some?
    ensures r.RanCommand? ==> r == RanCommand(b.commands[commandOf(msg.content.body)], msg)
    ensures r.RanMissing? ==> r == RanMissing(b.missingAction.value, msg)
    ensures r.RanPlainText? ==> r == RanPlainText(b.plainTextAction.value, msg)
    ensures !r.Resolved? && !r.RanEvent?
  {
    var text := msg.content.body;
    if IsCommandText(text) then ReceivedCommand(b, commandOf(text), msg)
    else ReceivedPlainText(b, text, msg)
  }

  /**
    `receivedNonResponseMessage`: text goes down the text chain; any other
    kind runs the action registered for its event name, if any. The event
    registry is never consulted for text.
  */
  function ReceivedNonResponseMessage(b: Bot, msg: Message, commandOf: string -> string): (r: Route)
    ensures !r.Resolved?
    ensures r.RanEvent? <==> msg.content.Event? && EventName(msg.content.kind) in b.events
    ensures r.RanEvent? ==> r == RanEvent(b.events[EventName(msg.content.kind)], msg)
    ensures msg.content.Event? ==> r.RanEvent? || r.Dropped?
    ensures msg.content.Text? ==> r == ReceivedText(b, msg, commandOf)
  {
    var event := EventOf(msg);
    if event == TextEvent then ReceivedText(b, msg, commandOf)
    else if event in b.events then RanEvent(b.events[event], msg)
    else Dropped
  }

  /** `receivedResponseMessage`: the message settles the pending wait, which leaves the store. */
  function ReceivedResponseMessage(b: Bot, msg: Message, ticket: Ticket, resolver: Resolver): (d: Dispatch)
    ensures d.route == Resolved(ticket, resolver, msg)
    ensures ticket !in d.bot.waiting
    ensures d.bot.waiting.Keys == b.waiting.Keys - {ticket}
    ensures forall t :: t in d.bot.waiting ==> d.bot.waiting[t] == b.waiting[t]
    ensures d.bot == RemoveFromWaiting(b, ticket)
  {
    Dispatch(RemoveFromWaiting(b, ticket), Resolved(ticket, resolver, msg))
  }

  /**
    `receivedMessage`: a message whose ticket has a pending wait goes to that
    wait and nowhere else; any other message is routed by its content and
    leaves the state unchanged.
  */
  function ReceivedMessage(b: Bot, msg: Message, commandOf: string -> string): (d: Dispatch)
    ensures d.route.Resolved? <==> TicketFromMessage(msg) in b.waiting
    ensures d.route.Resolved? ==>
      && d.route == Resolved(TicketFromMessage(msg), b.waiting[TicketFromMessage(msg)], msg)
      && d.bot == RemoveFromWaiting(b, TicketFromMessage(msg))
    ensures !d.route.Resolved? ==> d.bot == b
    ensures d.route.RanPlainText? <==>
      TicketFromMessage(msg) !in b.waiting && IsPlainTextMessage(msg) && b.plainTextAction.Some?
    ensures d.route.RanCommand? <==>
      TicketFromMessage(msg) !in b.waiting && IsCommandMessage(msg) && commandOf(msg.content.body) in b.commands
    ensures d.route.RanMissing? <==>
      && TicketFromMessage(msg) !in b.waiting && IsCommandMessage(msg)
      && commandOf(msg.content.body) !in b.commands && b.missingAction.Some?
    ensures d.route.RanEvent? <==>
      TicketFromMessage(msg) !in b.waiting && msg.content.Event? && EventName(msg.content.kind) in b.events
    ensures d.route.RanPlainText? ==> d.route == RanPlainText(b.plainTextAction.value, msg)
    ensures d.route.RanCommand? ==> d.route == RanCommand(b.commands[commandOf(msg.content.body)], msg)
    ensures d.route.RanMissing? ==> d.route == RanMissing(b.missingAction.value, msg)
    ensures d.route.RanEvent? ==> d.route == RanEvent(b.events[EventName(msg.content.kind)], msg)
  {
    var ticket := TicketFromMessage(msg);
    if ticket in b.waiting then ReceivedResponseMessage(b, msg, ticket, b.waiting[ticket])
    else Dispatch(b, ReceivedNonResponseMessage(b, msg, commandOf))
  }

  // ---------------------------------------------------------------------------
  // Properties of routing

  /** A text message never reaches an event action, even one registered under `'text'`. */
  lemma TextNeverRoutedToEvent(b: Bot, msg: Message, commandOf: string -> string)
    requires msg.content.Text?
    ensures !ReceivedMessage(b, msg, commandOf).route.RanEvent?
  {
  }

  /**
    After `waitResponse`, the next message from the same user in the same chat
    settles that wait, whatever it says, runs no other handler, and leaves
    nothing for the wait's timer to reject.
  */
  lemma ReplySettlesWait(b: Bot, msg: Message, timeout: Option<int>, resolver: Resolver,
                         reply: Message, commandOf: string -> string)
    requires reply.chatId == msg.chatId && reply.fromId == msg.fromId
    ensures var w := WaitResponse(b, msg, timeout, resolver);
      var d := ReceivedMessage(w.bot, reply, commandOf);
      && d.route == Resolved(w.ticket, resolver, reply)
      && Timeout(d.bot, w.ticket).rejected == None
  {
  }

  /** A wait that timed out no longer captures the user's next message: it is routed as if there had been no wait. */
  lemma TimedOutWaitReleasesConversation(b: Bot, msg: Message, timeout: Option<int>, resolver: Resolver,
                                         reply: Message, commandOf: string -> string)
    requires TicketFromMessage(msg) !in b.waiting
    ensures var w := WaitResponse(b, msg, timeout, resolver);
      ReceivedMessage(Timeout(w.bot, w.ticket).bot, reply, commandOf) == ReceivedMessage(b, reply, commandOf)
  {
  }

  /** With no pending wait, a command registered by `onCommand` runs its action. */
  lemma CommandAfterOnCommand(b: Bot, commands: KeyArg, a: Action, msg: Message, commandOf: string -> string)
    requires TicketFromMessage(msg) !in b.waiting
    requires IsCommandMessage(msg) && commandOf(msg.content.body) in commands.AsSeq()
    ensures ReceivedMessage(OnCommand(b, commands, a), msg, commandOf).route == RanCommand(a, msg)
  {
  }

  /** With no pending wait, an unregistered command reaches the action installed by `onMissingCommand`. */
  lemma MissingAfterOnMissingCommand(b: Bot, a: Action, msg: Message, commandOf: string -> string)
    requires TicketFromMessage(msg) !in b.waiting
    requires IsCommandMessage(msg) && commandOf(msg.content.body) !in b.commands
    ensures ReceivedMessage(OnMissingCommand(b, a), msg, commandOf).route == RanMissing(a, msg)
  {
  }

  /** With no pending wait, text without the `'/'` prefix reaches the action installed by `onPlainText`. */
  lemma PlainTextAfterOnPlainText(b: Bot, a: Action, msg: Message, commandOf: string -> string)
    requires TicketFromMessage(msg) !in b.waiting
    requires IsPlainTextMessage(msg)
    ensures ReceivedMessage(OnPlainText(b, a), msg, commandOf).route == RanPlainText(a, msg)
  {
  }

  /** With no pending wait, a message of a kind registered by `onEvent` runs its action. */
  lemma EventAfterOnEvent(b: Bot, events: KeyArg, a: Action, msg: Message, commandOf: string -> string)
    requires TicketFromMessage(msg) !in b.waiting
    requires msg.content.Event? && EventName(msg.content.kind) in events.AsSeq()
    ensures ReceivedMessage(OnEvent(b, events, a), msg, commandOf).route == RanEvent(a, msg)
  {
  }

  /** A message of a kind nobody registered for is dropped without error. */
  lemma UnregisteredEventDropped(b: Bot, msg: Message, commandOf: string -> string)
    requires TicketFromMessage(msg) !in b.waiting
    requires msg.content.Event? && EventName(msg.content.kind) !in b.events
    ensures ReceivedMessage(b, msg, commandOf) == Dispatch(b, Dropped)
  {
  }
}
