/**
  The state of a `TelegramTypedBot` and its registration, manual-invocation
  and pending-response operations, as pure transitions on an immutable record.
*/
module TypedBot {
  import opened Wrappers
  import opened Messages
  import opened Tickets
  import opened Errors
  import opened Registry

  /** The continuation that settles a `waitResponse` promise, known only by identity. */
  datatype Resolver = Resolver(id: nat)

  /** The `(me: User) => void` callback run on connection, known only by identity. */
  datatype InitAction = InitAction(id: nat)

  datatype Bot = Bot(
    commands: Actions,
    events: Actions,
    waiting: map<Ticket, Resolver>,
    initializationAction: Option<InitAction>,
    missingAction: Option<Action>,
    plainTextAction: Option<Action>,
    responseTimeout: int)

  // ---------------------------------------------------------------------------
  // Registration and manual invocation

  /** `onCommand`: maps every listed command to `a`; every other command keeps its entry. */
  function OnCommand(b: Bot, commands: KeyArg, a: Action): (r: Bot)
    ensures forall k :: k in commands.AsSeq() ==> k in r.commands && r.commands[k] == a
    ensures forall k :: k !in commands.AsSeq() ==> (k in r.commands <==> k in b.commands)
    ensures forall k :: k in b.commands && k !in commands.AsSeq() ==> r.commands[k] == b.commands[k]
    ensures r == b.(commands := r.commands)
  {
    b.(commands := Register(b.commands, commands.AsSeq(), a))
  }

  /** `execCommand`: the stored action applied to `msg`, or a rejection for an unregistered command. */
  function ExecCommand(b: Bot, command: string, msg: Message): (r: Result<Invocation, BotError>)
    ensures r.Failure? <==> command !in b.commands
    ensures r.Failure? ==> r.error == UnregisteredAction(command)
    ensures r.Success? ==> r.value == Invocation(b.commands[command], msg)
  {
    Exec(b.commands, command, msg)
  }

  /** `onEvent`: maps every listed event to `a`; every other event keeps its entry. */
  function OnEvent(b: Bot, events: KeyArg, a: Action): (r: Bot)
    ensures forall k :: k in events.AsSeq() ==> k in r.events && r.events[k] == a
    ensures forall k :: k !in events.AsSeq() ==> (k in r.events <==> k in b.events)
    ensures forall k :: k in b.events && k !in events.AsSeq() ==> r.events[k] == b.events[k]
    ensures r == b.(events := r.events)
  {
    b.(events := Register(b.events, events.AsSeq(), a))
  }

  /** `execEvent`: the stored action applied to `msg`, or a rejection for an unregistered event. */
  function ExecEvent(b: Bot, event: string, msg: Message): (r: Result<Invocation, BotError>)
    ensures r.Failure? <==> event !in b.events
    ensures r.Failure? ==> r.error == UnregisteredAction(event)
    ensures r.Success? ==> r.value == Invocation(b.events[event], msg)
  {
    Exec(b.events, event, msg)
  }

  /** A registered command runs its action; one registered twice runs the later one. */
  lemma ExecCommandAfterOnCommand(b: Bot, commands: KeyArg, a: Action, command: string, msg: Message)
    ensures command in commands.AsSeq() ==> ExecCommand(OnCommand(b, commands, a), command, msg) == Success(Invocation(a, msg))
    ensures command !in commands.AsSeq() ==> ExecCommand(OnCommand(b, commands, a), command, msg) == ExecCommand(b, command, msg)
  {
  }

  /** A registered event runs its action; one registered twice runs the later one. */
  lemma ExecEventAfterOnEvent(b: Bot, events: KeyArg, a: Action, event: string, msg: Message)
    ensures event in events.AsSeq() ==> ExecEvent(OnEvent(b, events, a), event, msg) == Success(Invocation(a, msg))
    ensures event !in events.AsSeq() ==> ExecEvent(OnEvent(b, events, a), event, msg) == ExecEvent(b, event, msg)
  {
  }

  /** `onPlainText`: installs the plain-text action and changes nothing else. */
  function OnPlainText(b: Bot, a: Action): (r: Bot)
    ensures r.plainTextAction == Some(a)
    ensures r == b.(plainTextAction := r.plainTextAction)
  {
    b.(plainTextAction := Some(a))
  }

  /** `onMissingCommand`: installs the missing-command action and changes nothing else. */
  function OnMissingCommand(b: Bot, a: Action): (r: Bot)
    ensures r.missingAction == Some(a)
    ensures r == b.(missingAction := r.missingAction)
  {
    b.(missingAction := Some(a))
  }

  /** `onInitialization`: installs the connection callback and changes nothing else. */
  function OnInitialization(b: Bot, a: InitAction): (r: Bot)
    ensures r.initializationAction == Some(a)
    ensures r == b.(initializationAction := r.initializationAction)
  {
    b.(initializationAction := Some(a))
  }

  // ---------------------------------------------------------------------------
  // Pending-response store

  /** `addToWaiting`: `ticket` now holds `resolver` (replacing any earlier one); other tickets are untouched. */
  function AddToWaiting(b: Bot, ticket: Ticket, resolver: Resolver): (r: Bot)
    ensures ticket in r.waiting && r.waiting[ticket] == resolver
    ensures r.waiting.Keys == b.waiting.Keys + {ticket}
    ensures forall t :: t in b.waiting && t != ticket ==> r.waiting[t] == b.waiting[t]
    ensures r == b.(waiting := r.waiting)
  {
    b.(waiting := b.waiting[ticket := resolver])
  }

  /** `removeFromWaiting`: `ticket` no longer holds a resolver; other tickets are untouched. */
  function RemoveFromWaiting(b: Bot, ticket: Ticket): (r: Bot)
    ensures ticket !in r.waiting
    ensures r.waiting.Keys == b.waiting.Keys - {ticket}
    ensures forall t :: t in r.waiting ==> r.waiting[t] == b.waiting[t]
    ensures r == b.(waiting := r.waiting)
  {
    b.(waiting := b.waiting - {ticket})
  }

  /** Removing a ticket that was just added restores the store it was added to. */
  lemma RemoveUndoesAdd(b: Bot, ticket: Ticket, resolver: Resolver)
    requires ticket !in b.waiting
    ensures RemoveFromWaiting(AddToWaiting(b, ticket, resolver), ticket) == b
  {
  }

  /** A wait registered by `waitResponse`: the state holding it, its ticket and its timeout. */
  datatype Wait = Wait(bot: Bot, ticket: Ticket, timeoutMs: int)

  /**
    `waitResponse`: registers `resolver` for the next message from the sender of
    `msg` in the chat of `msg`, timing out after `timeout`, or after
    `responseTimeout` when no timeout is given.
  */
  function WaitResponse(b: Bot, msg: Message, timeout: Option<int>, resolver: Resolver): (w: Wait)
    ensures w.ticket == TicketFromInfo(msg.chatId, msg.fromId)
    ensures timeout.None? ==> w.timeoutMs == b.responseTimeout
    ensures timeout.Some? ==> w.timeoutMs == timeout.value
    ensures w.bot == AddToWaiting(b, w.ticket, resolver)
  {
    var ticket := TicketFromMessage(msg);
    Wait(AddToWaiting(b, ticket, resolver), ticket, timeout.GetOr(b.responseTimeout))
  }

  /** The rejection of a pending `waitResponse` promise. */
  datatype Rejection = Rejection(resolver: Resolver, error: BotError)

  /** The state after a timer fires, and the wait it rejected, if one was still pending. */
  datatype Expiry = Expiry(bot: Bot, rejected: Option<Rejection>)

  /**
    The timer of the wait on `ticket` fires: a wait still pending is rejected
    with a timeout error and removed; a wait already settled is left alone.
  */
  function Timeout(b: Bot, ticket: Ticket): (e: Expiry)
    ensures e.rejected.Some? <==> ticket in b.waiting
    ensures e.rejected.Some? ==> e.rejected.value == Rejection(b.waiting[ticket], ResponseTimeout(ticket))
    ensures ticket !in e.bot.waiting
    ensures e.bot == RemoveFromWaiting(b, ticket)
  {
    if ticket in b.waiting then
      Expiry(RemoveFromWaiting(b, ticket), Some(Rejection(b.waiting[ticket], ResponseTimeout(ticket))))
    else
      Expiry(b, None)
  }

  /** A wait that times out is rejected with a timeout error and leaves the store as it was before the wait. */
  lemma WaitThenTimeout(b: Bot, msg: Message, timeout: Option<int>, resolver: Resolver)
    requires TicketFromMessage(msg) !in b.waiting
    ensures var w := WaitResponse(b, msg, timeout, resolver);
      && Timeout(w.bot, w.ticket).rejected == Some(Rejection(resolver, ResponseTimeout(w.ticket)))
      && Timeout(w.bot, w.ticket).bot == b
  {
  }

  /** A timer that fires twice rejects at most once. */
  lemma TimeoutRejectsOnce(b: Bot, ticket: Ticket)
    ensures Timeout(Timeout(b, ticket).bot, ticket).rejected == None
    ensures Timeout(Timeout(b, ticket).bot, ticket).bot == Timeout(b, ticket).bot
  {
  }
}
